/**
 * Which feature a parameter's name selects, and what the messages that carry a name do to that feature and no other.
 */
module ParameterNames {
  import opened Features
  import opened PythonText
  import opened FloatBits
  import opened SetPointStores
  import opened Messages

  function TagOf(f: Feature): string {
    match f
    case Iso => "S_ISO"
    case Aperture => "S_APERTURE"
    case ExPro => "S_EX_PRO_MODE"
    case FocusArea => "S_FOCUS_AREA"
    case Focus => "S_FOCUS_MODE"
    case Shutter => "S_SHUT_SPD"
    case WhiteBal => "S_WHITE_BAL"
    case StillCap => "S_STILL_CAP"
  }

  /** The place of a feature in the order in which the handlers look for the tags. */
  function Rank(f: Feature): nat {
    match f
    case Iso => 0
    case Aperture => 1
    case ExPro => 2
    case FocusArea => 3
    case Focus => 4
    case Shutter => 5
    case WhiteBal => 6
    case StillCap => 7
  }

  /** The name holds the feature's tag and none that is looked for earlier. */
  predicate Names(name: string, f: Feature) {
    Contains(name, TagOf(f)) && forall g: Feature | Rank(g) < Rank(f) :: !Contains(name, TagOf(g))
  }

  predicate NamesNothing(name: string) {
    forall g: Feature :: !Contains(name, TagOf(g))
  }

  lemma TagAt(i: nat)
    requires i < |TAGS|
    ensures Rank(TAGS[i].1) == i && TagOf(TAGS[i].1) == TAGS[i].0
  {
  }

  lemma RankUnique(f: Feature, g: Feature)
    ensures Rank(f) == Rank(g) ==> f == g
  {
  }

  /** The search from the i-th tag on finds the first tag that occurs in the name. */
  lemma {:induction false} FirstTagExact(name: string, i: nat)
    requires i <= 8
    ensures match FirstTag(name, i)
            case Tag(f) =>
              Rank(f) >= i && Contains(name, TagOf(f))
              && forall g: Feature | i <= Rank(g) < Rank(f) :: !Contains(name, TagOf(g))
            case Unknown => forall g: Feature | i <= Rank(g) :: !Contains(name, TagOf(g))
            case NoTag => false
    decreases 8 - i
  {
    if i < 8 {
      TagAt(i);
      FirstTagExact(name, i + 1);
      forall g: Feature | Rank(g) == i
        ensures g == TAGS[i].1
      {
        RankUnique(g, TAGS[i].1);
      }
    }
  }

  lemma OneName(name: string, f: Feature, g: Feature)
    requires Names(name, f) && Names(name, g)
    ensures f == g
  {
    RankUnique(f, g);
  }

  lemma EmptyNamesNothing(f: Feature)
    ensures !Contains("", TagOf(f))
  {
  }

  /** A name selects exactly the feature whose tag it holds and no earlier one. */
  lemma TargetOfName(name: string, f: Feature)
    ensures TargetOf(name) == Tag(f) <==> Names(name, f)
    ensures TargetOf(name) == Unknown <==> name != "" && NamesNothing(name)
    ensures TargetOf(name) == NoTag <==> name == ""
  {
    FirstTagExact(name, 0);
    if name == "" {
      EmptyNamesNothing(f);
    } else if Names(name, f) {
      var found := TargetOf(name);
      assert found.Tag?;
      OneName(name, f, found.f);
    }
  }

  // ---------- what the messages do ----------

  lemma SetTagged(s: Store, fr: Frame, f: Feature, v: Option<int>, wordTyped: bool)
    requires s.owner == STATE_READY
    ensures AfterMessage(s, fr, ParamSet(Tag(f), v, wordTyped))
            == match v
               case Some(n) => Effect(s.(req := s.req[f := ToSlot(n)]), fr, !wordTyped)
               case None => Effect(s.(owner := STATE_MAV_WRITING), fr, true)
  {
  }

  /**
   * A PARAM_SET that names a feature, of an integer type, on a free store: the word becomes the feature's request, and
   * nothing else changes. Of a float type: the truncated number does, if there is one.
   */
  lemma SetByName(s: Store, fr: Frame, name: string, f: Feature, typ: int, bits: nat)
    requires s.owner == STATE_READY && Names(name, f) && bits < 0x1_0000_0000
    ensures var (m, v) := (ParamSetMessage(name, typ, bits), ReceivedValue(typ, bits));
            && (typ <= 8 && !IsSignalling(SingleOf(bits))
                ==> AfterMessage(s, fr, m) == Effect(s.(req := s.req[f := ToSlot(bits)]), fr, false))
            && (typ > 8 && v.Some?
                ==> AfterMessage(s, fr, m) == Effect(s.(req := s.req[f := ToSlot(v.value)]), fr, true))
            && (v.None? ==> AfterMessage(s, fr, m) == Effect(s.(owner := STATE_MAV_WRITING), fr, true))
  {
    TargetOfName(name, f);
    ReceivedExact(typ, bits);
    SetTagged(s, fr, f, ReceivedValue(typ, bits), typ <= MAV_PARAM_TYPE_INT64);
  }

  /** A PARAM_REQUEST_READ that names a feature asks for exactly that feature, whoever holds the store. */
  lemma ReadByName(s: Store, fr: Frame, name: string, f: Feature)
    requires Names(name, f)
    ensures var e := AfterMessage(s, fr, ParamReadMessage(name));
            && e.store == s.(plain := s.plain + {f}) && e.frame == fr
            && (e.dies <==> s.owner == STATE_READY && At(s.req, f) < 0)
  {
    TargetOfName(name, f);
  }

  /** A PARAM_EXT_REQUEST_READ that names a feature asks for exactly that feature if it is answered at once. */
  lemma ExtReadByName(s: Store, fr: Frame, name: string, f: Feature, linkUp: bool)
    requires Names(name, f)
    ensures AfterMessage(s, fr, ExtReadMessage(name, linkUp))
            == Effect(if s.owner == STATE_READY && linkUp then s.(ext := s.ext + {f}) else s, fr, false)
  {
    TargetOfName(name, f);
  }

  /** A name that selects nothing changes nothing; one that is not empty kills the receiver of an ext read. */
  lemma NothingByName(s: Store, fr: Frame, name: string, typ: int, bits: nat, linkUp: bool)
    requires NamesNothing(name) && bits < 0x1_0000_0000
    ensures AfterMessage(s, fr, ParamSetMessage(name, typ, bits)) == Effect(s, fr, ReceivedValue(typ, bits).None?)
    ensures AfterMessage(s, fr, ParamReadMessage(name)) == Effect(s, fr, false)
    ensures AfterMessage(s, fr, ExtReadMessage(name, linkUp)) == Effect(s, fr, name != "")
  {
    TargetOfName(name, Iso);
  }
}
