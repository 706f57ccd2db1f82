/** From a PARAM_SET on the wire, or a request, to the value the ground station reads back. */
module EndToEnd {
  import opened Features
  import opened Enumerators
  import opened PythonText
  import opened CameraText
  import opened FloatBits
  import opened SetPointStores
  import opened MemoryValues
  import opened ServicePasses
  import opened Transactions
  import opened Messages
  import opened ParameterNames

  // ---------- what a camera prints ----------

  /** The word under which the camera program prints a feature. */
  function PrintedKey(f: Feature): string {
    match f
    case Iso => "ISO_Format"
    case Aperture => "Aperture_Val"
    case ExPro => "Exposure_Program_Value"
    case FocusArea => "Focus_Area_Val"
    case Focus => "Focus_Val"
    case Shutter => "Shutter_Value"
    case WhiteBal => "White_Bal_Val"
    case StillCap => "Still_Capture_Val"
  }

  /** The reply of a camera that has just changed a feature: the old value and the new one. */
  function ReplyOf(f: Feature, text: string, before: nat, after: nat): Reply {
    Reply(text, Report(PrintedKey(f), [Decimal(before), Decimal(after)]))
  }

  /** The report of a camera that is asked for a feature: its value, perhaps with more values after it. */
  function ReportOf(f: Feature, v: nat, more: seq<string>): seq<string> {
    Report(PrintedKey(f), [Decimal(v)] + more)
  }

  lemma ContainsChar(s: string, part: string, k: nat)
    requires Contains(s, part) && k < |part|
    ensures part[k] in s
  {
    var i :| 0 <= i <= |s| && part <= s[i..];
    assert s[i..][k] == part[k] == s[i + k];
  }

  lemma DigitsAreClean(s: string, f: Feature)
    requires IsDigits(s)
    ensures CleanValue(s, PrintedKey(f))
  {
    if Contains(s, PrintedKey(f)) {
      ContainsChar(s, PrintedKey(f), 0);
    }
    if Contains(s, "AUTO") {
      ContainsChar(s, "AUTO", 0);
    }
  }

  lemma KeyIsProper(f: Feature)
    ensures |PrintedKey(f)| > 1 && ',' !in PrintedKey(f) && KeyOf(f) == PrintedKey(f)
  {
  }

  /** Such a reply reads as an echo of the new value. */
  lemma ReplyEchoes(f: Feature, text: string, before: nat, after: nat)
    requires !LinkError(Reply(text, [])) && !Contains(text, "not writable")
    ensures AnswerOf(f, ReplyOf(f, text, before, after)) == Echo(after)
  {
    var values := [Decimal(before), Decimal(after)];
    DigitsAreClean(values[0], f);
    DigitsAreClean(values[1], f);
    KeyIsProper(f);
    ReportRoundTrip(PrintedKey(f), values);
    IntOfDecimal(after);
    var ans := SetAnswers(f, ReplyOf(f, text, before, after));
    assert ans == Texts(values) && ans[1] == Text(values[1]);
  }

  /** A printed report of up to 33333 values reads as its first value. */
  lemma ReportReads(f: Feature, v: nat, more: seq<string>)
    requires |more| < 33333 && forall i | 0 <= i < |more| :: CleanValue(more[i], PrintedKey(f))
    ensures ReportedValue(f, ReportOf(f, v, more)) == Some(v)
  {
    var values := [Decimal(v)] + more;
    DigitsAreClean(values[0], f);
    KeyIsProper(f);
    ReportRoundTrip(PrintedKey(f), values);
    IntOfDecimal(v);
  }

  /** Asked to read a feature it can read, a service pass caches the value printed first and drops the request. */
  lemma ReportServed(s: Served, reports: Reports, f: Feature, v: nat, more: seq<string>)
    requires f in s.plain && EntryOf(s.cache, f).owner == STATE_READY
    requires |more| < 33333 && forall i | 0 <= i < |more| :: CleanValue(more[i], PrintedKey(f))
    requires f in reports && reports[f] == ReportOf(f, v, more)
    ensures var after := Pass(ReadPlain, s, ReadingsOf(reports));
            var e := EntryOf(after.cache, f);
            && f !in after.plain
            && e.signal == ToSlot(v) && e.prev == EntryOf(s.cache, f).signal && e.updateNeeded
  {
    ReportReads(f, v, more);
    PassExact(s, ReadingsOf(reports), f);
  }

  /** Reading such a report into a free entry succeeds and caches the value, whatever else is printed after it. */
  method ReadReport(f: Feature, mem: MemoryValue, v: nat, more: seq<string>) returns (ret: bool)
    requires |more| < 33333 && forall i | 0 <= i < |more| :: CleanValue(more[i], PrintedKey(f))
    requires mem.owner == STATE_READY
    modifies mem
    ensures ret
    ensures mem.signal == ToSlot(v) && mem.prev == old(mem.signal) && mem.updateNeeded && mem.owner == STATE_READY
  {
    ReportReads(f, v, more);
    ret := GetSonyCamData(f, mem, ReportOf(f, v, more));
  }

  /**
   * A pending valid request and a camera that switches to the option it is told: the camera is sent the code of
   * exactly that request, and exactly that request is committed and cached for announcement.
   */
  lemma AcceptedRequestCommits(s: Store, e: Entry, f: Feature, text: string, before: nat)
    requires s.owner == STATE_READY && e.owner == STATE_READY
    requires At(s.req, f) != At(s.com, f) && Enumerate(f, At(s.req, f)).Some?
    requires !LinkError(Reply(text, [])) && !Contains(text, "not writable")
    ensures var v := At(s.req, f);
            var option := CameraOption(f, Enumerate(f, v).value);
            && option.Some? && option.value >= 0
            && var o := Verdict(s, f, AnswerOf(f, ReplyOf(f, text, before, option.value)));
               var (s', e') := (SettledStore(s, f, o), SettledEntry(e, v, o));
               && CommandOf(f, v, o) == Enumerate(f, v)
               && At(s'.com, f) == At(s'.req, f) == v && f !in s'.protect
               && e'.signal == v && e'.prev == e.signal && e'.updateNeeded
  {
    var v := At(s.req, f);
    OptionOfRequest(f, v);
    ReplyEchoes(f, text, before, v);
  }

  lemma BelowInfinity(v: nat)
    requires v < 0x7F80_0000
    ensures !IsNaN(SingleOf(v)) && !IsSignalling(SingleOf(v))
  {
  }

  /**
   * Over the wire: a PARAM_SET of an integer type whose word is an option of the feature stores that option, and
   * the PARAM_VALUE that announces it once it is cached is read back as the same word.
   */
  lemma OptionOverTheWire(s: Store, fr: Frame, f: Feature, name: string, typ: int, v: nat)
    requires s.owner == STATE_READY && Names(name, f) && typ <= MAV_PARAM_TYPE_INT64
    requires Enumerate(f, v).Some? && v < 0x1_0000_0000
    ensures At(AfterMessage(s, fr, ParamSetMessage(name, typ, v)).store.req, f) == v
    ensures IsDouble(Widen(SingleOf(v))) && FromMessage(typ, Float(Widen(SingleOf(v)))) == Some(Whole(v))
  {
    OptionOfRequest(f, v);
    BelowInfinity(v);
    ReceivedExact(typ, v);
    WireRoundTrip(typ, v);
    SetByName(s, fr, name, f, typ, v);
  }
}
