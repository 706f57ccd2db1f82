/**
 * The loop that picks answers out of the tokens printed by the camera program. A token holding the key arms
 * it, a colon token keeps it armed, and the next other token is an answer. The loop keeps "armed" as the
 * index of the arming token, with one index value reserved to mean "disarmed".
 */
module CameraText {
  import opened Features
  import opened PythonText

  const NOT_ARMED := 99999
  const EARLIER_NOT_ARMED := 0

  datatype Kind = Key | Colon | Value

  function KindOf(token: string, key: string): Kind {
    if Contains(token, key) then Key
    else if Contains(token, ":") then Colon
    else Value
  }

  /** The descriptor the camera program prints before a feature's values. */
  function KeyOf(f: Feature): string {
    match f
    case Iso => "ISO_Format"
    case Aperture => "Aperture_Val"
    case ExPro => "Exposure_Program_Value"
    case FocusArea => "Focus_Area_Val"
    case Focus => "Focus_Val"
    case Shutter => "Shutter_Value"
    case WhiteBal => "White_Bal_Val"
    case StillCap => "Still_Capture_Val"
  }

  /** An automatic setting reads 0; commas are dropped everywhere and closing brackets at both ends. */
  function Clean(token: string): string {
    var t := if !IsDigits(token) && Contains(token, "AUTO") then "0" else token;
    Strip(Without(t, ','), {'}'})
  }

  function CleanAll(tokens: seq<string>): (r: seq<string>)
    ensures |r| == |tokens|
  {
    if tokens == [] then [] else [Clean(tokens[0])] + CleanAll(tokens[1..])
  }

  // ---------- the two-state automaton ----------

  function ArmedAfter(kind: Kind, armed: bool): bool {
    kind == Key || (armed && kind == Colon)
  }

  /** The value tokens picked by a scanner that is armed or not. */
  function Picked(tokens: seq<string>, key: string, armed: bool): seq<string> {
    if tokens == [] then []
    else
      var kind := KindOf(tokens[0], key);
      (if armed && kind == Value then [tokens[0]] else []) + Picked(tokens[1..], key, ArmedAfter(kind, armed))
  }

  // ---------- the index-sentinel loop ----------

  function NextIndex(kind: Kind, sentinel: nat, itemNo: nat, idx: nat): nat {
    if kind == Key || (idx != sentinel && kind == Colon) then itemNo else sentinel
  }

  function IndexPicked(tokens: seq<string>, key: string, sentinel: nat, itemNo: nat, idx: nat): seq<string> {
    if tokens == [] then []
    else
      var kind := KindOf(tokens[0], key);
      (if idx != sentinel && kind == Value then [tokens[0]] else [])
      + IndexPicked(tokens[1..], key, sentinel, itemNo + 1, NextIndex(kind, sentinel, itemNo, idx))
  }

  function Answers(tokens: seq<string>, key: string): seq<string> {
    CleanAll(IndexPicked(tokens, key, NOT_ARMED, 0, NOT_ARMED))
  }

  lemma PickStep(tokens: seq<string>, key: string, sentinel: nat, itemNo: nat, idx: nat)
    requires itemNo < |tokens|
    ensures var kind := KindOf(tokens[itemNo], key);
            IndexPicked(tokens[itemNo..], key, sentinel, itemNo, idx)
            == (if idx != sentinel && kind == Value then [tokens[itemNo]] else [])
               + IndexPicked(tokens[itemNo + 1..], key, sentinel, itemNo + 1, NextIndex(kind, sentinel, itemNo, idx))
  {
    assert tokens[itemNo..][1..] == tokens[itemNo + 1..];
  }

  /** The answers still to come once the loop stands before token itemNo. */
  function AnswersFrom(tokens: seq<string>, key: string, itemNo: nat, idx: nat): seq<string>
    requires itemNo <= |tokens|
  {
    CleanAll(IndexPicked(tokens[itemNo..], key, NOT_ARMED, itemNo, idx))
  }

  lemma AnswerStep(tokens: seq<string>, key: string, itemNo: nat, idx: nat)
    requires itemNo < |tokens|
    ensures var kind := KindOf(tokens[itemNo], key);
            var next := AnswersFrom(tokens, key, itemNo + 1, NextIndex(kind, NOT_ARMED, itemNo, idx));
            AnswersFrom(tokens, key, itemNo, idx)
            == if idx != NOT_ARMED && kind == Value then [Clean(tokens[itemNo])] + next else next
  {
    PickStep(tokens, key, NOT_ARMED, itemNo, idx);
    var kind := KindOf(tokens[itemNo], key);
    var rest := IndexPicked(tokens[itemNo + 1..], key, NOT_ARMED, itemNo + 1, NextIndex(kind, NOT_ARMED, itemNo, idx));
    assert [] + rest == rest && ([tokens[itemNo]] + rest)[1..] == rest;
  }

  method CleanToken(token: string) returns (vv: string)
    ensures vv == Clean(token)
  {
    var xx := token;
    if !IsDigits(xx) {
      if Contains(xx, "AUTO") {
        xx := "0";
      }
    }
    xx := Without(xx, ',');
    vv := Strip(xx, {'}'});
  }

  /** The loop of the set and get routines. */
  method ParseAnswers(tokens: seq<string>, key: string) returns (answers: seq<string>)
    ensures answers == Answers(tokens, key)
  {
    var itemNo: nat, idx: nat := 0, NOT_ARMED;
    answers := [];
    assert tokens[0..] == tokens;
    while itemNo < |tokens|
      invariant itemNo <= |tokens|
      invariant answers + AnswersFrom(tokens, key, itemNo, idx) == Answers(tokens, key)
    {
      var xx := tokens[itemNo];
      AnswerStep(tokens, key, itemNo, idx);
      if Contains(xx, key) {
        idx := itemNo;
      } else if idx != NOT_ARMED {
        if Contains(xx, ":") {
          idx := itemNo;
        } else {
          var vv := CleanToken(xx);
          answers := answers + [vv];
          idx := NOT_ARMED;
        }
      }
      itemNo := itemNo + 1;
    }
    assert AnswersFrom(tokens, key, itemNo, idx) == [];
  }

  /** Every answer is comma-free and has no closing bracket at either end. */
  lemma {:induction false} AnswersAreClean(tokens: seq<string>, i: nat)
    requires i < |tokens|
    ensures var r := CleanAll(tokens)[i];
            r == Clean(tokens[i]) && ',' !in r && (r == [] || (r[0] != '}' && r[|r| - 1] != '}'))
  {
    if i > 0 {
      AnswersAreClean(tokens[1..], i - 1);
    } else {
      var token := tokens[0];
      var t := if !IsDigits(token) && Contains(token, "AUTO") then "0" else token;
      WithoutRemoves(t, ',');
      StripEnds(Without(t, ','), {'}'}, ',');
    }
  }

  /** A raw answer of the earlier loop: automatic settings become the number 0, other tokens stay as printed. */
  datatype EarlierAnswer = AutoZero | Raw(token: string)

  function Earlier(token: string): EarlierAnswer {
    if !IsDigits(token) && Contains(token, "AUTO") then AutoZero else Raw(token)
  }

  function EarlierAll(tokens: seq<string>): (r: seq<EarlierAnswer>)
    ensures |r| == |tokens|
  {
    if tokens == [] then [] else [Earlier(tokens[0])] + EarlierAll(tokens[1..])
  }

  function EarlierFrom(tokens: seq<string>, key: string, itemNo: nat, idx: nat): seq<EarlierAnswer>
    requires itemNo <= |tokens|
  {
    EarlierAll(IndexPicked(tokens[itemNo..], key, EARLIER_NOT_ARMED, itemNo, idx))
  }

  lemma EarlierStep(tokens: seq<string>, key: string, itemNo: nat, idx: nat)
    requires itemNo < |tokens|
    ensures var kind := KindOf(tokens[itemNo], key);
            var next := EarlierFrom(tokens, key, itemNo + 1, NextIndex(kind, EARLIER_NOT_ARMED, itemNo, idx));
            EarlierFrom(tokens, key, itemNo, idx)
            == if idx != EARLIER_NOT_ARMED && kind == Value then [Earlier(tokens[itemNo])] + next else next
  {
    PickStep(tokens, key, EARLIER_NOT_ARMED, itemNo, idx);
    var kind := KindOf(tokens[itemNo], key);
    var rest := IndexPicked(tokens[itemNo + 1..], key, EARLIER_NOT_ARMED, itemNo + 1,
                            NextIndex(kind, EARLIER_NOT_ARMED, itemNo, idx));
    assert [] + rest == rest && ([tokens[itemNo]] + rest)[1..] == rest;
  }

  method EarlierToken(xx: string) returns (answer: EarlierAnswer)
    ensures answer == Earlier(xx)
  {
    if !IsDigits(xx) && Contains(xx, "AUTO") {
      answer := AutoZero;
    } else {
      answer := Raw(xx);
    }
  }

  /** The loop of the earlier camera class, whose disarmed mark is index 0. */
  method ParseAnswersEarlier(tokens: seq<string>, key: string) returns (answers: seq<EarlierAnswer>)
    ensures answers == EarlierAll(IndexPicked(tokens, key, EARLIER_NOT_ARMED, 0, EARLIER_NOT_ARMED))
  {
    var itemNo: nat, idx: nat := 0, EARLIER_NOT_ARMED;
    answers := [];
    assert tokens[0..] == tokens;
    ghost var wanted := EarlierFrom(tokens, key, itemNo, idx);
    while itemNo < |tokens|
      invariant itemNo <= |tokens|
      invariant answers + EarlierFrom(tokens, key, itemNo, idx) == wanted
    {
      var xx := tokens[itemNo];
      EarlierStep(tokens, key, itemNo, idx);
      if Contains(xx, key) {
        idx := itemNo;
      } else if idx != EARLIER_NOT_ARMED {
        if Contains(xx, ":") {
          idx := itemNo;
        } else {
          var answer := EarlierToken(xx);
          answers := answers + [answer];
          idx := EARLIER_NOT_ARMED;
        }
      }
      itemNo := itemNo + 1;
    }
    assert EarlierFrom(tokens, key, itemNo, idx) == [];
  }

  // ---------- the loop against the automaton ----------

  /** Is the automaton armed after the first n tokens? */
  function ArmedBefore(tokens: seq<string>, key: string, n: nat): bool
    requires n <= |tokens|
  {
    n > 0 && ArmedAfter(KindOf(tokens[n - 1], key), ArmedBefore(tokens, key, n - 1))
  }

  /** Would an armed scanner pick its next answer before another key arms it again? */
  predicate AnswerComes(tokens: seq<string>, key: string) {
    tokens != [] && var kind := KindOf(tokens[0], key);
    kind == Value || (kind == Colon && AnswerComes(tokens[1..], key))
  }

  /** The token at the sentinel's own index arms the scanner and an answer follows. */
  predicate ArmLost(tokens: seq<string>, key: string, sentinel: nat) {
    && sentinel < |tokens|
    && ArmedBefore(tokens, key, sentinel + 1)
    && AnswerComes(tokens[sentinel + 1..], key)
  }

  /** Away from the sentinel index, the index loop is the automaton. */
  lemma {:induction false} LoopIsAutomatonAfter(tokens: seq<string>, key: string, sentinel: nat, itemNo: nat, idx: nat)
    requires sentinel < itemNo || itemNo + |tokens| <= sentinel
    ensures IndexPicked(tokens, key, sentinel, itemNo, idx) == Picked(tokens, key, idx != sentinel)
  {
    if tokens != [] {
      LoopIsAutomatonAfter(tokens[1..], key, sentinel, itemNo + 1,
          NextIndex(KindOf(tokens[0], key), sentinel, itemNo, idx));
    }
  }

  /** An arm lost costs exactly the one answer it would have picked. */
  lemma {:induction false} LostArmCost(tokens: seq<string>, key: string)
    ensures AnswerComes(tokens, key) ==> |Picked(tokens, key, true)| == |Picked(tokens, key, false)| + 1
    ensures !AnswerComes(tokens, key) ==> Picked(tokens, key, true) == Picked(tokens, key, false)
  {
    if tokens != [] && KindOf(tokens[0], key) == Colon {
      LostArmCost(tokens[1..], key);
    }
  }

  /** Up to the sentinel index the loop and the automaton agree; from there on only a lost arm tells them apart. */
  lemma {:induction false} LoopFromIndex(tokens: seq<string>, key: string, sentinel: nat, itemNo: nat, idx: nat)
    requires itemNo <= sentinel && itemNo <= |tokens|
    requires idx != sentinel <==> ArmedBefore(tokens, key, itemNo)
    ensures var looped := IndexPicked(tokens[itemNo..], key, sentinel, itemNo, idx);
            var wanted := Picked(tokens[itemNo..], key, idx != sentinel);
            if ArmLost(tokens, key, sentinel) then |looped| + 1 == |wanted| else looped == wanted
    decreases sentinel - itemNo
  {
    var rest := tokens[itemNo..];
    if rest != [] {
      var kind := KindOf(rest[0], key);
      assert rest[1..] == tokens[itemNo + 1..];
      var next := NextIndex(kind, sentinel, itemNo, idx);
      if itemNo < sentinel {
        LoopFromIndex(tokens, key, sentinel, itemNo + 1, next);
      } else {
        LoopIsAutomatonAfter(rest[1..], key, sentinel, itemNo + 1, next);
        LostArmCost(rest[1..], key);
      }
    }
  }

  /** The index loop computes the automaton's answers exactly when no arm falls on the sentinel index and is needed. */
  lemma SentinelLoopExact(tokens: seq<string>, key: string, sentinel: nat)
    ensures IndexPicked(tokens, key, sentinel, 0, sentinel) == Picked(tokens, key, false)
            <==> !ArmLost(tokens, key, sentinel)
  {
    assert tokens[0..] == tokens;
    LoopFromIndex(tokens, key, sentinel, 0, sentinel);
  }

  /**
   * Camera output never reaches the reserved index: any list of at most 100000 tokens is parsed as the automaton
   * does.
   */
  lemma ShortOutputIsSafe(tokens: seq<string>, key: string)
    requires |tokens| <= NOT_ARMED + 1
    ensures IndexPicked(tokens, key, NOT_ARMED, 0, NOT_ARMED) == Picked(tokens, key, false)
  {
    SentinelLoopExact(tokens, key, NOT_ARMED);
  }

  /** The earlier loop misses an answer exactly when token 0 is the key token of a value that follows. */
  lemma EarlierLoopExact(tokens: seq<string>, key: string)
    ensures IndexPicked(tokens, key, EARLIER_NOT_ARMED, 0, EARLIER_NOT_ARMED) == Picked(tokens, key, false)
            <==> !(tokens != [] && Contains(tokens[0], key) && AnswerComes(tokens[1..], key))
  {
    SentinelLoopExact(tokens, key, EARLIER_NOT_ARMED);
    if tokens != [] {
      assert ArmedBefore(tokens, key, 1) == ArmedAfter(KindOf(tokens[0], key), ArmedBefore(tokens, key, 0));
    }
  }

  // ---------- what answers look like ----------

  function KeyCount(tokens: seq<string>, key: string): nat {
    if tokens == [] then 0 else (if Contains(tokens[0], key) then 1 else 0) + KeyCount(tokens[1..], key)
  }

  /** Whatever is printed, each key token yields at most one answer. */
  lemma {:induction false} PickedBound(tokens: seq<string>, key: string, armed: bool)
    ensures |Picked(tokens, key, armed)| <= KeyCount(tokens, key) + if armed then 1 else 0
  {
    if tokens != [] {
      PickedBound(tokens[1..], key, ArmedAfter(KindOf(tokens[0], key), armed));
    }
  }

  lemma {:induction false} LoopBound(tokens: seq<string>, key: string, sentinel: nat)
    ensures |IndexPicked(tokens, key, sentinel, 0, sentinel)| <= KeyCount(tokens, key)
  {
    assert tokens[0..] == tokens;
    LoopFromIndex(tokens, key, sentinel, 0, sentinel);
    PickedBound(tokens, key, false);
  }

  // ---------- printing and parsing back ----------

  /** The tokens of a camera report that lists the given values under one key. */
  function Report(key: string, values: seq<string>): seq<string> {
    if values == [] then [] else [key, ":", values[0] + ","] + Report(key, values[1..])
  }

  /** A value that survives the scanner's tests and cleaning. */
  predicate CleanValue(v: string, key: string) {
    && !Contains(v, key) && ':' !in v && ',' !in v && !Contains(v, "AUTO")
    && (v == [] || (v[0] != '}' && v[|v| - 1] != '}'))
  }

  lemma ContainsAppended(v: string, c: char, part: string)
    requires Contains(v + [c], part) && c !in part && part != []
    ensures Contains(v, part)
  {
    var i :| 0 <= i <= |v + [c]| && part <= (v + [c])[i..];
    var tail, last := (v + [c])[i..], |part| - 1;
    assert part[last] == tail[last] == (v + [c])[i + last];
    assert i + last < |v|;
    assert v[i..] + [c] == tail;
    assert part <= v[i..];
  }

  lemma CharFound(s: string, c: char)
    requires Contains(s, [c])
    ensures c in s
  {
    var i :| 0 <= i <= |s| && [c] <= s[i..];
    assert s[i..][0] == c;
  }

  lemma CleanValueToken(v: string, key: string)
    requires CleanValue(v, key) && ',' !in key && key != []
    ensures KindOf(v + ",", key) == Value && Clean(v + ",") == v
  {
    var token := v + ",";
    if Contains(token, key) {
      ContainsAppended(v, ',', key);
    }
    if Contains(token, ":") {
      ContainsAppended(v, ',', ":");
      CharFound(v, ':');
    }
    if Contains(token, "AUTO") {
      ContainsAppended(v, ',', "AUTO");
    }
    WithoutAppend(v, ',');
  }

  /** The automaton picks out of a printed report the values that were printed. */
  lemma {:induction false} ReportPicked(key: string, values: seq<string>, armed: bool)
    requires key != [] && ',' !in key
    requires forall i | 0 <= i < |values| :: CleanValue(values[i], key)
    ensures CleanAll(Picked(Report(key, values), key, armed)) == values
  {
    if values != [] {
      var report, v := Report(key, values), values[0];
      var rest := Report(key, values[1..]);
      assert report[1..][1..][1..] == rest;
      ContainsSelf(key);
      CleanValueToken(v, key);
      ReportPicked(key, values[1..], false);
      ColonToken(key);
      var p := Picked(rest, key, false);
      assert Picked(report[1..][1..], key, true) == [v + ","] + p;
      if Contains(":", key) {
        assert Picked(report[1..], key, true) == [v + ","] + p;
      } else {
        assert Picked(report[1..], key, true) == [v + ","] + p;
      }
      assert Picked(report, key, armed) == [v + ","] + p;
    }
  }

  lemma {:induction false} ReportAt(key: string, values: seq<string>, i: nat)
    requires i < |values|
    ensures |Report(key, values)| == 3 * |values|
    ensures Report(key, values)[3 * i] == key && Report(key, values)[3 * i + 1] == ":"
    ensures Report(key, values)[3 * i + 2] == values[i] + ","
    decreases i
  {
    ReportLength(key, values);
    if i > 0 {
      ReportAt(key, values[1..], i - 1);
    }
  }

  lemma {:induction false} ReportLength(key: string, values: seq<string>)
    ensures |Report(key, values)| == 3 * |values|
  {
    if values != [] {
      ReportLength(key, values[1..]);
    }
  }

  /** The reserved index is a multiple of three, so in a long report it falls on a key whose value is lost. */
  lemma LongReportLoses(key: string, values: seq<string>, i: nat)
    requires |key| > 1 && ',' !in key && 3 * i == NOT_ARMED && i < |values| && CleanValue(values[i], key)
    ensures ArmLost(Report(key, values), key, NOT_ARMED)
  {
    var tokens := Report(key, values);
    ReportAt(key, values, i);
    ContainsSelf(key);
    assert tokens[NOT_ARMED] == key;
    assert ArmedBefore(tokens, key, NOT_ARMED + 1);
    CleanValueToken(values[i], key);
    ColonKind(key);
    var rest := tokens[NOT_ARMED + 1..];
    assert rest[0] == ":" && rest[1..][0] == values[i] + ",";
    assert AnswerComes(rest[1..], key);
  }

  lemma CleanAllLength(tokens: seq<string>, other: seq<string>)
    requires |tokens| != |other|
    ensures CleanAll(tokens) != CleanAll(other)
  {
  }

  /** Parsing a printed report gives back the values that were printed, exactly if there are at most 33333 of them. */
  lemma ReportRoundTrip(key: string, values: seq<string>)
    requires |key| > 1 && ',' !in key
    requires forall i | 0 <= i < |values| :: CleanValue(values[i], key)
    ensures Answers(Report(key, values), key) == values <==> 3 * |values| <= NOT_ARMED
  {
    var tokens := Report(key, values);
    ReportPicked(key, values, false);
    ReportLength(key, values);
    if 3 * |values| <= NOT_ARMED {
      ShortOutputIsSafe(tokens, key);
    } else {
      LongReportLoses(key, values, NOT_ARMED / 3);
      assert tokens[0..] == tokens;
      LoopFromIndex(tokens, key, NOT_ARMED, 0, NOT_ARMED);
      CleanAllLength(IndexPicked(tokens, key, NOT_ARMED, 0, NOT_ARMED), Picked(tokens, key, false));
    }
  }

  lemma ContainsSelf(s: string)
    ensures Contains(s, s)
  {
    assert s <= s[0..];
  }

  lemma ContainsLength(s: string, part: string)
    requires Contains(s, part)
    ensures |part| <= |s|
  {
    var i :| 0 <= i <= |s| && part <= s[i..];
  }

  lemma ColonKind(key: string)
    requires |key| > 1
    ensures KindOf(":", key) == Colon
  {
    ColonToken(key);
    if Contains(":", key) {
      ContainsLength(":", key);
    }
  }

  lemma ColonToken(key: string)
    ensures KindOf(":", key) == Key || KindOf(":", key) == Colon
  {
    ContainsSelf(":");
  }

  // ---------- what arms the scanner ----------

  /** The earlier loop hands tokens on as they are printed; only an automatic setting becomes 0. */
  lemma EarlierIsRaw(token: string)
    ensures Earlier(token) == if Contains(token, "AUTO") then AutoZero else Raw(token)
  {
    if Contains(token, "AUTO") {
      var i :| 0 <= i <= |token| && "AUTO" <= token[i..];
      assert token[i..][0] == 'A' == token[i];
    }
  }

  lemma PickedPair(t: string, v: string, key: string, armed: bool)
    ensures Picked([t, v], key, armed)
            == (if armed && KindOf(t, key) == Value then [t] else [])
               + if ArmedAfter(KindOf(t, key), armed) && KindOf(v, key) == Value then [v] else []
  {
    var next := ArmedAfter(KindOf(t, key), armed);
    assert [t, v][1..] == [v] && [v][1..] == [];
    assert Picked([v], key, next) == if next && KindOf(v, key) == Value then [v] else [];
  }

  /**
   * A value is picked right after a token that holds the key, even one that holds a colon as well, and after a colon
   * that follows it; once it is picked the next one is not.
   */
  lemma ArmsExactly(t: string, c: string, v: string, key: string)
    requires !Contains(v, key) && !Contains(v, ":") && !Contains(c, key)
    ensures Picked([t, v], key, false) == if Contains(t, key) then [v] else []
    ensures Picked([t, c, v], key, false)
            == if !Contains(t, key) then [] else if Contains(c, ":") then [v] else [c]
  {
    PickedPair(t, v, key, false);
    assert [t, c, v][1..] == [c, v];
    PickedPair(c, v, key, ArmedAfter(KindOf(t, key), false));
  }

  /** An automatic setting reads 0, whatever else its token holds. */
  lemma AutoIsZero(a: string, b: string)
    ensures Clean(a + "AUTO" + b) == "0"
  {
    var token := a + "AUTO" + b;
    ContainsAround(a, "AUTO", b);
    assert token[|a|] == 'A';
    WithoutAppend("", '0');
    StripPadded([], "0", [], {'}'});
    assert [] + "0" + [] == "0" && Without("0", ',') == "0";
  }

  /** Commas anywhere and brackets at the ends go; a token that is clean between them is left. */
  lemma CleanValueKept(a: string, v: string, b: string)
    requires AllIn(a, {'}'}) && AllIn(b, {'}'}) && v != [] && v[0] != '}' && v[|v| - 1] != '}'
    requires ',' !in a + v + b && !Contains(a + v + b, "AUTO")
    ensures Clean(a + v + b) == v && Clean(a + v + b + [',']) == v
  {
    StripPadded(a, v, b, {'}'});
    WithoutNone(a + v + b, ',');
    WithoutAppend(a + v + b, ',');
    if Contains(a + v + b + [','], "AUTO") {
      ContainsAppended(a + v + b, ',', "AUTO");
    }
  }

  lemma {:induction false} WithoutNone(s: string, c: char)
    requires c !in s
    ensures Without(s, c) == s
  {
    if s != [] {
      WithoutNone(s[1..], c);
    }
  }
}
