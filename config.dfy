/** The post-processing `parse_args` applies once argparse has filled in the
    namespace: choosing the embedding-size table from the dataset path, turning the
    comma-separated size string into a list of ints (`list(map(int, s.split(",")))`),
    and giving every stage's batch limit the default 10 when no dataset is given. */
module Config {
  import opened Wrappers

  // ---------------------------------------------------------------------------
  // `sub in s` on strings
  // ---------------------------------------------------------------------------

  /** Python's substring test `sub in s`. */
  function Contains(s: string, sub: string): bool
    decreases |s|
  {
    if |s| < |sub| then false
    else if s[..|sub|] == sub then true
    else Contains(s[1..], sub)
  }

  /** sub occurs in s at position i. */
  predicate OccursAt(s: string, sub: string, i: nat)
  {
    i + |sub| <= |s| && s[i..i + |sub|] == sub
  }

  lemma OccursShift(s: string, sub: string, i: nat)
    requires |s| >= 1
    ensures OccursAt(s, sub, i + 1) <==> OccursAt(s[1..], sub, i)
  {
    if i + 1 + |sub| <= |s| {
      assert s[1..][i..i + |sub|] == s[i + 1..i + 1 + |sub|];
    }
  }

  /** `sub in s` holds exactly when sub occurs at some position of s. */
  lemma {:induction false} ContainsSpec(s: string, sub: string)
    ensures Contains(s, sub) <==> exists i: nat :: OccursAt(s, sub, i)
    decreases |s|
  {
    if |s| < |sub| {
      forall i: nat ensures !OccursAt(s, sub, i) {}
    } else if s[..|sub|] == sub {
      assert OccursAt(s, sub, 0);
    } else {
      ContainsSpec(s[1..], sub);
      if i: nat :| OccursAt(s, sub, i) {
        assert i != 0;
        OccursShift(s, sub, i - 1);
      }
      if i: nat :| OccursAt(s[1..], sub, i) {
        OccursShift(s, sub, i);
      }
    }
  }

  /** An occurrence at position i makes `sub in s` true. */
  lemma ContainsAt(s: string, sub: string, i: nat)
    requires OccursAt(s, sub, i)
    ensures Contains(s, sub)
  {
    ContainsSpec(s, sub);
  }

  /** A string that contains sub contains sub's first character. */
  lemma ContainsFirstChar(s: string, sub: string)
    requires |sub| >= 1
    ensures Contains(s, sub) ==> sub[0] in s
  {
    ContainsSpec(s, sub);
    if i: nat :| OccursAt(s, sub, i) {
      assert s[i..i + |sub|][0] == s[i];
    }
  }

  // ---------------------------------------------------------------------------
  // Choosing the embedding-size table (lines 160-167)
  // ---------------------------------------------------------------------------

  /** The size strings of the dataset modules, which are not part of this model:
      criteo.NUM_EMBEDDINGS_PER_FEATURE, criteo.KAGGLE_NUM_EMBEDDINGS_PER_FEATURE and
      avazu.NUM_EMBEDDINGS_PER_FEATURE. */
  datatype Tables = Tables(criteo: string, criteoKaggle: string, avazu: string)

  /** The value of `num_embeddings_per_feature` after the dataset check: a path
      naming criteo picks a criteo table (the Kaggle one when it also names kaggle),
      otherwise one naming avazu picks the avazu table, otherwise the value given on
      the command line stays. */
  function SelectEmbeddings(dir: Option<string>, given: Option<string>, t: Tables): (r: Option<string>)
    ensures dir.None? ==> r == given
    ensures r == given || r == Some(t.criteo) || r == Some(t.criteoKaggle) || r == Some(t.avazu)
    ensures r != given ==> dir.Some? && (Contains(dir.value, "criteo") || Contains(dir.value, "avazu"))
  {
    if dir.None? then given
    else if Contains(dir.value, "criteo") then
      if Contains(dir.value, "kaggle") then Some(t.criteoKaggle) else Some(t.criteo)
    else if Contains(dir.value, "avazu") then Some(t.avazu)
    else given
  }

  /** Wherever "criteo" occurs in the path, a criteo table is chosen, whatever else
      the path names: the Kaggle one when "kaggle" occurs somewhere, the full one
      when it occurs nowhere. */
  lemma SelectionCriteoAnywhere(p: string, q: string, given: Option<string>, t: Tables)
    ensures var d := p + "criteo" + q;
            var r := SelectEmbeddings(Some(d), given, t);
            && (r == Some(t.criteo) || r == Some(t.criteoKaggle))
            && ((exists i: nat :: OccursAt(d, "kaggle", i)) ==> r == Some(t.criteoKaggle))
            && ((forall i: nat :: !OccursAt(d, "kaggle", i)) ==> r == Some(t.criteo))
  {
    var d := p + "criteo" + q;
    assert d[|p|..|p| + 6] == "criteo";
    ContainsAt(d, "criteo", |p|);
    ContainsSpec(d, "kaggle");
  }

  /** A path in which "criteo" occurs nowhere and "avazu" occurs at position i gets
      the avazu table. */
  lemma SelectionAvazu(d: string, i: nat, given: Option<string>, t: Tables)
    requires OccursAt(d, "avazu", i)
    requires forall j: nat :: !OccursAt(d, "criteo", j)
    ensures SelectEmbeddings(Some(d), given, t) == Some(t.avazu)
  {
    ContainsAt(d, "avazu", i);
    ContainsSpec(d, "criteo");
  }

  /** A path in which neither "criteo" nor "avazu" occurs keeps the command-line
      value, whether or not it names kaggle. */
  lemma SelectionNeither(d: string, given: Option<string>, t: Tables)
    requires forall j: nat :: !OccursAt(d, "criteo", j)
    requires forall j: nat :: !OccursAt(d, "avazu", j)
    ensures SelectEmbeddings(Some(d), given, t) == given
  {
    ContainsSpec(d, "criteo");
    ContainsSpec(d, "avazu");
  }

  /** Without "criteo", "kaggle" never matters: two paths without "criteo" that agree
      on whether "avazu" occurs get the same value, whatever else they contain. */
  lemma SelectionKaggleIgnored(d: string, e: string, given: Option<string>, t: Tables)
    requires forall j: nat :: !OccursAt(d, "criteo", j)
    requires forall j: nat :: !OccursAt(e, "criteo", j)
    requires (exists i: nat :: OccursAt(d, "avazu", i)) <==> (exists i: nat :: OccursAt(e, "avazu", i))
    ensures SelectEmbeddings(Some(d), given, t) == SelectEmbeddings(Some(e), given, t)
  {
    ContainsSpec(d, "criteo");
    ContainsSpec(e, "criteo");
    ContainsSpec(d, "avazu");
    ContainsSpec(e, "avazu");
  }

  /** A path naming criteo, kaggle and avazu gets the Kaggle criteo table. */
  lemma SelectionKaggle(given: Option<string>, t: Tables)
    ensures SelectEmbeddings(Some("/data/criteo_kaggle/avazu"), given, t) == Some(t.criteoKaggle)
  {
    var d: string := "/data/criteo_kaggle/avazu";
    assert d[6..12] == "criteo";
    ContainsAt(d, "criteo", 6);
    assert d[13..19] == "kaggle";
    ContainsAt(d, "kaggle", 13);
  }

  /** A path naming avazu and then criteo gets the full criteo table. */
  lemma SelectionCriteoFirst(given: Option<string>, t: Tables)
    ensures SelectEmbeddings(Some("avazu+criteo"), given, t) == Some(t.criteo)
  {
    var d: string := "avazu+criteo";
    assert d[6..12] == "criteo";
    ContainsAt(d, "criteo", 6);
    assert 'k' !in d;
    ContainsFirstChar(d, "kaggle");
  }

  // ---------------------------------------------------------------------------
  // str.split(",")
  // ---------------------------------------------------------------------------

  /** How often c occurs in s. */
  function Count(s: string, c: char): nat
  {
    if s == [] then 0 else (if s[0] == c then 1 else 0) + Count(s[1..], c)
  }

  /** `s.split(sep)` with an explicit separator: one field per separator plus one,
      none of them holding the separator; "" splits into [""]. */
  function Split(s: string, sep: char): (r: seq<string>)
    ensures |r| == Count(s, sep) + 1
    ensures forall i :: 0 <= i < |r| ==> sep !in r[i]
    decreases |s|
  {
    if s == [] then [[]]
    else
      var rest := Split(s[1..], sep);
      if s[0] == sep then [[]] + rest
      else [[s[0]] + rest[0]] + rest[1..]
  }

  /** `sep.join(fs)`. */
  function Join(fs: seq<string>, sep: char): string
    requires |fs| >= 1
  {
    if |fs| == 1 then fs[0] else fs[0] + [sep] + Join(fs[1..], sep)
  }

  /** Joining the fields of a split with the separator gives back the string. */
  lemma {:induction false} JoinSplit(s: string, sep: char)
    ensures Join(Split(s, sep), sep) == s
    decreases |s|
  {
    if s != [] {
      var rest := Split(s[1..], sep);
      JoinSplit(s[1..], sep);
      if s[0] == sep {
        assert Split(s, sep)[1..] == rest;
        assert s == [] + [sep] + s[1..];
      } else if |rest| == 1 {
        assert s == [s[0]] + rest[0];
      } else {
        var r := Split(s, sep);
        assert r[1..] == rest[1..];
        assert Join(rest, sep) == rest[0] + [sep] + Join(rest[1..], sep);
        assert s == [s[0]] + (rest[0] + [sep] + Join(rest[1..], sep));
      }
    }
  }

  /** A prefix free of the separator joins the first field of what follows it. */
  lemma {:induction false} SplitPrefix(a: string, tail: string, sep: char)
    requires sep !in a
    ensures Split(a + tail, sep) == [a + Split(tail, sep)[0]] + Split(tail, sep)[1..]
    decreases |a|
  {
    if a == [] {
      assert a + tail == tail;
      assert a + Split(tail, sep)[0] == Split(tail, sep)[0];
      assert Split(tail, sep) == [Split(tail, sep)[0]] + Split(tail, sep)[1..];
    } else {
      assert (a + tail)[1..] == a[1..] + tail;
      SplitPrefix(a[1..], tail, sep);
      assert [a[0]] + (a[1..] + Split(tail, sep)[0]) == a + Split(tail, sep)[0];
    }
  }

  /** Splitting fields joined with a separator none of them holds gives back the fields. */
  lemma {:induction false} SplitJoin(fs: seq<string>, sep: char)
    requires |fs| >= 1 && forall i :: 0 <= i < |fs| ==> sep !in fs[i]
    ensures Split(Join(fs, sep), sep) == fs
    decreases |fs|
  {
    if |fs| == 1 {
      SplitPrefix(fs[0], [], sep);
      assert fs[0] + [] == fs[0];
    } else {
      var tail := [sep] + Join(fs[1..], sep);
      assert Join(fs, sep) == fs[0] + tail;
      SplitPrefix(fs[0], tail, sep);
      SplitJoin(fs[1..], sep);
      assert tail[1..] == Join(fs[1..], sep);
      assert Split(tail, sep) == [[]] + fs[1..];
      assert fs[0] + [] == fs[0];
    }
  }

  // ---------------------------------------------------------------------------
  // int() on a string, and str() of an int
  // ---------------------------------------------------------------------------

  /** The ValueError int() raises, with the text it could not read. */
  datatype ValueError = InvalidLiteral(text: string)

  /** The ASCII characters Python's str.isspace accepts. */
  predicate IsSpace(c: char)
  {
    c == ' ' || ('\t' <= c <= '\r') || ('\U{1C}' <= c <= '\U{1F}')
  }

  predicate IsDigit(c: char)
  {
    '0' <= c <= '9'
  }

  function TrimStart(s: string): string
  {
    if s != [] && IsSpace(s[0]) then TrimStart(s[1..]) else s
  }

  function TrimEnd(s: string): string
  {
    if s != [] && IsSpace(s[|s| - 1]) then TrimEnd(s[..|s| - 1]) else s
  }

  /** int() ignores surrounding whitespace. */
  function Strip(s: string): string
  {
    TrimEnd(TrimStart(s))
  }

  /** Decimal digits with single underscores between digits, as int() accepts. */
  predicate DigitRun(d: string)
  {
    && |d| >= 1 && IsDigit(d[0])
    && forall i :: 0 <= i < |d| ==> DigitOrSeparator(d, i)
  }

  /** Character i is a digit, or an underscore with a digit right after it. */
  predicate DigitOrSeparator(d: string, i: nat)
    requires i < |d|
  {
    IsDigit(d[i]) || (d[i] == '_' && i + 1 < |d| && IsDigit(d[i + 1]))
  }

  /** A digit run ends with a digit. */
  lemma DigitRunEnds(d: string)
    ensures DigitRun(d) ==> IsDigit(d[|d| - 1])
  {
    if DigitRun(d) {
      var k := |d| - 1;
      assert DigitOrSeparator(d, k);
    }
  }

  function DigitValue(c: char): nat
  {
    if IsDigit(c) then c as int - '0' as int else 0
  }

  /** The number the digits spell, underscores skipped. */
  function DigitsValue(d: string): nat
  {
    if d == [] then 0
    else if d[|d| - 1] == '_' then DigitsValue(d[..|d| - 1])
    else 10 * DigitsValue(d[..|d| - 1]) + DigitValue(d[|d| - 1])
  }

  /** `int(s)`: optional whitespace, an optional sign, a digit run, optional whitespace;
      anything else raises ValueError. */
  function ParseInt(s: string): (r: Result<int, ValueError>)
    ensures r.Failure? ==> r.error == InvalidLiteral(s)
    ensures r.Success? ==> |Strip(s)| >= 1 && IsDigit(Strip(s)[|Strip(s)| - 1])
    ensures r.Success? && r.value < 0 ==> Strip(s)[0] == '-'
  {
    var t := Strip(s);
    DigitRunEnds(t);
    DigitRunEnds(if |t| >= 1 then t[1..] else t);
    if |t| >= 1 && (t[0] == '+' || t[0] == '-') then
      var v: int := DigitsValue(t[1..]);
      if DigitRun(t[1..]) then Success(if t[0] == '-' then -v else v)
      else Failure(InvalidLiteral(s))
    else if DigitRun(t) then Success(DigitsValue(t))
    else Failure(InvalidLiteral(s))
  }

  function DigitChar(d: nat): char
    requires d < 10
  {
    ('0' as int + d) as char
  }

  /** `str(n)` for n >= 0. */
  function ShowNat(n: nat): (r: string)
    ensures |r| >= 1 && forall i :: 0 <= i < |r| ==> IsDigit(r[i])
  {
    if n < 10 then [DigitChar(n)] else ShowNat(n / 10) + [DigitChar(n % 10)]
  }

  /** `str(n)`. */
  function Show(n: int): string
  {
    if n < 0 then "-" + ShowNat(-n) else ShowNat(n)
  }

  lemma {:induction false} ShowNatValue(n: nat)
    ensures DigitRun(ShowNat(n)) && DigitsValue(ShowNat(n)) == n
    decreases n
  {
    var r := ShowNat(n);
    if n >= 10 {
      ShowNatValue(n / 10);
      assert r[..|r| - 1] == ShowNat(n / 10);
    }
  }

  lemma StripUnpadded(s: string)
    requires |s| >= 1 && !IsSpace(s[0]) && !IsSpace(s[|s| - 1])
    ensures Strip(s) == s
  {
  }

  /** int(str(n)) == n. */
  lemma ParseShow(n: int)
    ensures ParseInt(Show(n)) == Success(n)
  {
    var m := if n < 0 then -n else n;
    ShowNatValue(m);
    var d := ShowNat(m);
    assert IsDigit(d[0]) && IsDigit(d[|d| - 1]);
    if n < 0 {
      var s := "-" + d;
      assert s[|s| - 1] == d[|d| - 1];
      StripUnpadded(s);
      assert s[1..] == d;
    } else {
      StripUnpadded(d);
    }
  }

  /** int() reads surrounding whitespace, a sign and underscores between digits. */
  lemma ParseIntSigned()
    ensures ParseInt(" -1_000\n") == Success(-1000)
  {
    var t: string := "-1_000";
    assert Strip(" -1_000\n") == t by {
      assert TrimStart(" -1_000\n") == t + "\n";
      assert (t + "\n")[..|t|] == t;
    }
    var d := t[1..];
    assert d == "1_000";
    assert forall i :: 0 <= i < |d| ==> DigitOrSeparator(d, i);
    assert DigitsValue(d) == 1000 by {
      assert DigitsValue("") == 0;
      assert "1"[..0] == "";
      assert DigitsValue("1") == 1;
      assert "1_"[..1] == "1";
      assert DigitsValue("1_") == 1;
      assert "1_0"[..2] == "1_";
      assert DigitsValue("1_0") == 10;
      assert "1_00"[..3] == "1_0";
      assert DigitsValue("1_00") == 100;
      assert d[..4] == "1_00";
    }
  }

  /** int() accepts an explicit plus sign and leading zeros. */
  lemma ParseIntLeadingZeros()
    ensures ParseInt("+007") == Success(7)
  {
    var d: string := "007";
    assert "+007"[1..] == d;
    assert forall i :: 0 <= i < |d| ==> DigitOrSeparator(d, i);
    assert DigitsValue(d) == 7 by {
      assert "0"[..0] == "";
      assert DigitsValue("0") == 0;
      assert "00"[..1] == "0";
      assert DigitsValue("00") == 0;
      assert d[..2] == "00";
    }
  }

  /** int() refuses an empty or blank field, a lone sign, a doubled underscore and
      a trailing underscore. */
  lemma ParseIntRefuses()
    ensures ParseInt("").Failure? && ParseInt("  ").Failure? && ParseInt("-").Failure?
    ensures ParseInt("1__0").Failure? && ParseInt("10_").Failure?
  {
    assert Strip("  ") == "";
    assert "-"[1..] == "";
    var u: string := "1__0";
    assert !DigitOrSeparator(u, 1);
    DigitRunEnds("10_");
    assert "10_"[|"10_"| - 1] == '_';
  }

  // ---------------------------------------------------------------------------
  // list(map(int, s.split(","))) (line 170)
  // ---------------------------------------------------------------------------

  /** Field i is the first that int() refuses, with error e. */
  predicate FailsFirstAt(fs: seq<string>, i: nat, e: ValueError)
  {
    i < |fs| && ParseInt(fs[i]) == Failure(e) && forall j :: 0 <= j < i ==> ParseInt(fs[j]).Success?
  }

  lemma FailsFirstShift(fs: seq<string>, i: nat, e: ValueError)
    requires |fs| >= 1 && ParseInt(fs[0]).Success? && FailsFirstAt(fs[1..], i, e)
    ensures FailsFirstAt(fs, i + 1, e)
  {
    assert fs[i + 1] == fs[1..][i];
    forall j | 0 <= j < i + 1 ensures ParseInt(fs[j]).Success? {
      if j > 0 {
        assert fs[j] == fs[1..][j - 1];
      }
    }
  }

  /** `list(map(int, fs))`: every field read in order; the first that int() refuses
      raises its ValueError. */
  function ParseAll(fs: seq<string>): (r: Result<seq<int>, ValueError>)
    ensures r.Success? <==> forall i :: 0 <= i < |fs| ==> ParseInt(fs[i]).Success?
    ensures r.Success? ==> |r.value| == |fs| && forall i :: 0 <= i < |fs| ==> r.value[i] == ParseInt(fs[i]).value
    ensures r.Failure? ==> exists i :: FailsFirstAt(fs, i, r.error)
  {
    if fs == [] then Success([])
    else
      match ParseInt(fs[0])
      case Failure(e) => assert FailsFirstAt(fs, 0, e); Failure(e)
      case Success(x) =>
        var rest := ParseAll(fs[1..]);
        if rest.Failure? then
          assert exists k :: FailsFirstAt(fs, k, rest.error) by {
            var i :| FailsFirstAt(fs[1..], i, rest.error);
            FailsFirstShift(fs, i, rest.error);
          }
          Failure(rest.error)
        else Success([x] + rest.value)
  }

  /** `list(map(int, s.split(",")))`: one int per comma-separated field. */
  function ParseSizes(s: string): (r: Result<seq<int>, ValueError>)
    ensures r.Success? ==> |r.value| == Count(s, ',') + 1
    ensures r.Success? <==> forall f :: f in Split(s, ',') ==> ParseInt(f).Success?
  {
    ParseAll(Split(s, ','))
  }

  /** The ints written with str() and joined with commas are read back exactly. */
  lemma ParseSizesRoundTrip(xs: seq<int>)
    requires |xs| >= 1
    ensures ParseSizes(Join(seq(|xs|, i requires 0 <= i < |xs| => Show(xs[i])), ',')) == Success(xs)
  {
    var fs := seq(|xs|, i requires 0 <= i < |xs| => Show(xs[i]));
    forall i | 0 <= i < |fs| ensures ',' !in fs[i] && ParseInt(fs[i]) == Success(xs[i]) {
      ParseShow(xs[i]);
      var d := ShowNat(if xs[i] < 0 then -xs[i] else xs[i]);
      assert forall k :: 0 <= k < |d| ==> d[k] != ',';
      assert ',' !in d;
    }
    SplitJoin(fs, ',');
    var r := ParseAll(fs);
    assert r.Success?;
    assert r.value == xs;
  }

  /** A size string with an empty field raises ValueError, however many good fields
      surround it; the empty string and two commas in a row are such strings. */
  lemma ParseSizesRejects(s: string, a: string, b: string)
    ensures "" in Split(s, ',') ==> ParseSizes(s).Failure?
    ensures ParseSizes("").Failure?
    ensures ParseSizes(a + ",," + b).Failure?
  {
    assert Split("", ',') == [""];
    assert ParseInt("").Failure? by {
      assert Strip("") == "";
    }
    var u := a + ",," + b;
    var fs := Split(u, ',');
    JoinSplit(u, ',');
    assert forall f :: f in fs ==> ',' !in f;
    var i := |a|;
    assert u[i] == ',' && u[i + 1] == ',';
    DoubleSeparator(fs, ',', i);
    assert ParseInt([]).Failure? by {
      assert Strip([]) == [];
    }
  }

  /** Two separators in a row in a join mean one of the joined fields is empty. */
  lemma {:induction false} DoubleSeparator(fs: seq<string>, sep: char, i: nat)
    requires |fs| >= 1 && forall f :: f in fs ==> sep !in f
    ensures i + 1 < |Join(fs, sep)| && Join(fs, sep)[i] == sep && Join(fs, sep)[i + 1] == sep ==> [] in fs
    decreases |fs|
  {
    assert fs[0] in fs;
    if |fs| > 1 {
      var rest := Join(fs[1..], sep);
      assert Join(fs, sep) == fs[0] + [sep] + rest;
      if i < |fs[0]| {
        assert Join(fs, sep)[i] == fs[0][i];
      } else if i == |fs[0]| {
        assert fs[1] in fs;
        if fs[1] != [] {
          assert rest[0] == fs[1][0] by {
            if |fs| > 2 {
              assert Join(fs[1..], sep) == fs[1] + [sep] + Join(fs[2..], sep);
            }
          }
        }
      } else {
        forall f | f in fs[1..] ensures sep !in f {
          assert f in fs;
        }
        DoubleSeparator(fs[1..], sep, i - |fs[0]| - 1);
        if i + 1 < |Join(fs, sep)| {
          assert Join(fs, sep)[i] == rest[i - |fs[0]| - 1];
        }
        if [] in fs[1..] {
          var k :| 0 <= k < |fs[1..]| && fs[1..][k] == [];
          assert fs[k + 1] == [];
        }
      }
    }
  }

  // ---------------------------------------------------------------------------
  // Default batch limits (lines 171-175) and the namespace
  // ---------------------------------------------------------------------------

  /** criteo.STAGES. */
  const Stages: seq<string> := ["train", "val", "test"]

  /** The limit every stage gets when no dataset directory is given. */
  const DefaultLimit: int := 10

  /** The attribute name `f"limit_{stage}_batches"`. */
  function LimitAttr(stage: string): string
  {
    "limit_" + stage + "_batches"
  }

  /** k names the limit of one of the stages. */
  predicate LimitOfSome(k: string, stages: seq<string>)
  {
    exists st :: st in stages && k == LimitAttr(st)
  }

  lemma LimitOfSomeStep(k: string, stages: seq<string>, st: string)
    ensures LimitOfSome(k, stages + [st]) <==> LimitOfSome(k, stages) || k == LimitAttr(st)
  {
    if k == LimitAttr(st) {
      assert st in stages + [st];
    }
    if LimitOfSome(k, stages) {
      var x :| x in stages && k == LimitAttr(x);
      assert x in stages + [st];
    }
  }

  predicate IsLimitAttr(k: string)
  {
    LimitOfSome(k, Stages)
  }

  /** The limits after the defaulting step: with no dataset directory every stage's
      limit that is None becomes 10; explicit limits and every other attribute stay. */
  function DefaultLimits(dir: Option<string>, limits: map<string, Option<int>>): (r: map<string, Option<int>>)
    ensures r.Keys == limits.Keys
    ensures forall k :: k in limits && !IsLimitAttr(k) ==> r[k] == limits[k]
    ensures dir.Some? ==> r == limits
  {
    if dir.Some? then limits
    else FillStages(Stages, limits)
  }

  /** The limits once the loop has visited `stages`: each of their limits that is None is 10. */
  function FillStages(stages: seq<string>, limits: map<string, Option<int>>): map<string, Option<int>>
  {
    map k | k in limits :: if LimitOfSome(k, stages) && limits[k].None? then Some(DefaultLimit) else limits[k]
  }

  /** Visiting one more stage sets its limit to 10 when it is None. */
  lemma FillStagesStep(stages: seq<string>, st: string, limits: map<string, Option<int>>)
    requires LimitAttr(st) in limits
    ensures var m := FillStages(stages, limits);
            var k := LimitAttr(st);
            FillStages(stages + [st], limits) == if m[k].None? then m[k := Some(DefaultLimit)] else m
  {
    var k := LimitAttr(st);
    var m := FillStages(stages, limits);
    var m' := FillStages(stages + [st], limits);
    var expected := if m[k].None? then m[k := Some(DefaultLimit)] else m;
    forall x | x in limits ensures m'[x] == expected[x] {
      LimitOfSomeStep(x, stages, st);
    }
    assert m'.Keys == expected.Keys;
  }

  /** Each stage: a None limit becomes 10 and an explicit limit is kept, unless a
      dataset directory is given, which keeps every limit as it is. */
  lemma DefaultLimitsPerStage(dir: Option<string>, limits: map<string, Option<int>>, stage: string)
    requires stage in Stages && LimitAttr(stage) in limits
    ensures var k := LimitAttr(stage);
            DefaultLimits(dir, limits)[k]
            == if dir.None? && limits[k].None? then Some(DefaultLimit) else limits[k]
  {
  }

  /** The type `num_embeddings_per_feature` has: the string argparse read, or the
      list of ints it is turned into. */
  datatype EmbeddingSizes = Text(text: string) | Sizes(sizes: seq<int>)

  function TextOf(v: Option<EmbeddingSizes>): Option<string>
  {
    if v.Some? && v.value.Text? then Some(v.value.text) else None
  }

  /** The argparse namespace, as far as the post-processing reads and writes it;
      `limits` holds the `limit_*_batches` attributes by name. */
  class Namespace {
    var datasetDir: Option<string>
    var numEmbeddingsPerFeature: Option<EmbeddingSizes>
    var limits: map<string, Option<int>>

    /** argparse declares a limit attribute for every stage. */
    predicate Valid()
      reads this
    {
      forall st :: st in Stages ==> LimitAttr(st) in limits
    }

    /** The namespace argparse returns. */
    constructor (datasetDir: Option<string>, numEmbeddingsPerFeature: Option<string>,
                 limitTrain: Option<int>, limitVal: Option<int>, limitTest: Option<int>)
      ensures Valid() && this.datasetDir == datasetDir
      ensures this.numEmbeddingsPerFeature == if numEmbeddingsPerFeature.Some? then Some(Text(numEmbeddingsPerFeature.value)) else None
      ensures limits == map[LimitAttr("train") := limitTrain, LimitAttr("val") := limitVal, LimitAttr("test") := limitTest]
    {
      this.datasetDir := datasetDir;
      this.numEmbeddingsPerFeature := if numEmbeddingsPerFeature.Some? then Some(Text(numEmbeddingsPerFeature.value)) else None;
      limits := map[LimitAttr("train") := limitTrain, LimitAttr("val") := limitVal, LimitAttr("test") := limitTest];
    }

    /** `for stage in criteo.STAGES: if getattr(args, attr) is None: setattr(args, attr, 10)`. */
    method FillDefaultLimits()
      requires Valid()
      modifies this
      ensures Valid() && datasetDir == old(datasetDir) && numEmbeddingsPerFeature == old(numEmbeddingsPerFeature)
      ensures limits == DefaultLimits(None, old(limits))
    {
      for n := 0 to |Stages|
        invariant Valid() && datasetDir == old(datasetDir) && numEmbeddingsPerFeature == old(numEmbeddingsPerFeature)
        invariant limits == FillStages(Stages[..n], old(limits))
      {
        var attr := LimitAttr(Stages[n]);
        assert Stages[..n + 1] == Stages[..n] + [Stages[n]];
        FillStagesStep(Stages[..n], Stages[n], old(limits));
        if limits[attr].None? {
          limits := limits[attr := Some(DefaultLimit)];
        }
      }
      assert Stages[..|Stages|] == Stages;
    }

    /** Lines 160-175 of parse_args. A ValueError from int() escapes before the
        limits are touched, leaving the chosen table string in place. */
    method PostProcess(t: Tables) returns (err: Option<ValueError>)
      requires Valid() && (numEmbeddingsPerFeature.Some? ==> numEmbeddingsPerFeature.value.Text?)
      modifies this
      ensures Valid() && datasetDir == old(datasetDir)
      ensures var chosen := SelectEmbeddings(old(datasetDir), TextOf(old(numEmbeddingsPerFeature)), t);
              && (chosen.None? ==> err.None? && numEmbeddingsPerFeature.None?)
              && (chosen.Some? && ParseSizes(chosen.value).Failure? ==>
                    err == Some(ParseSizes(chosen.value).error)
                    && numEmbeddingsPerFeature == Some(Text(chosen.value)) && limits == old(limits))
              && (chosen.Some? && ParseSizes(chosen.value).Success? ==>
                    err.None? && numEmbeddingsPerFeature == Some(Sizes(ParseSizes(chosen.value).value)))
      ensures err.None? ==> limits == DefaultLimits(old(datasetDir), old(limits))
    {
      if datasetDir.Some? {
        if Contains(datasetDir.value, "criteo") {
          if Contains(datasetDir.value, "kaggle") {
            numEmbeddingsPerFeature := Some(Text(t.criteoKaggle));
          } else {
            numEmbeddingsPerFeature := Some(Text(t.criteo));
          }
        } else if Contains(datasetDir.value, "avazu") {
          numEmbeddingsPerFeature := Some(Text(t.avazu));
        }
      }
      if numEmbeddingsPerFeature.Some? {
        var parsed := ParseSizes(numEmbeddingsPerFeature.value.text);
        if parsed.Failure? {
          return Some(parsed.error);
        }
        numEmbeddingsPerFeature := Some(Sizes(parsed.value));
      }
      if datasetDir.None? {
        FillDefaultLimits();
      }
      err := None;
    }
  }
}
