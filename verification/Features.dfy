/** The eight camera features, their request and write-protect bits, and the shared 32-bit slot. */
module Features {

  datatype Feature = Iso | Aperture | ExPro | FocusArea | Focus | Shutter | WhiteBal | StillCap

  datatype Option<+T> = None | Some(value: T)

  // Owner-field values.
  const STATE_INIT := 99
  const STATE_READY := 1
  const STATE_CAM_WRITING := 2
  const STATE_MAV_READING := 3
  const STATE_MAV_WRITING := 4
  const STATE_CAM_READING := 5

  // Write modes of a set-point.
  const WRITE_PREV_DATA := 1
  const DONT_WRITE_PREV_DATA := 0

  // Which camera routine is running.
  const FUNC_IDLE := 0

  const MAV_REQ_ALL_PARAM: bv32 := 255

  /** The order in which a service pass visits the features. */
  const SERVICE_ORDER: seq<Feature> := [StillCap, WhiteBal, Shutter, Iso, Focus, FocusArea, Aperture, ExPro]

  /** Bit of a feature in the two request words. */
  function ParamMask(f: Feature): bv32 {
    match f
    case StillCap => 1
    case WhiteBal => 2
    case Shutter => 4
    case Iso => 8
    case Focus => 16
    case FocusArea => 32
    case Aperture => 64
    case ExPro => 128
  }

  /** Bit of a feature in the write-protect word: 1 << k for the feature's bit number k in 1..8. */
  function ProtectMask(f: Feature): bv32 {
    match f
    case ExPro => 0x2
    case Aperture => 0x4
    case Focus => 0x8
    case Iso => 0x10
    case Shutter => 0x20
    case WhiteBal => 0x40
    case StillCap => 0x80
    case FocusArea => 0x100
  }

  predicate Requested(word: bv32, f: Feature) {
    word & ParamMask(f) != 0
  }

  predicate Protected(word: bv32, f: Feature) {
    word & ProtectMask(f) != 0
  }

  lemma OrElsewhere(word: bv32, m: bv32, n: bv32)
    requires m & n == 0
    ensures (word | m) & n == word & n
  {
  }

  lemma AndNotElsewhere(word: bv32, m: bv32, n: bv32)
    requires m & n == 0
    ensures (word & !m) & n == word & n
  {
  }

  lemma RequestApart(f: Feature, g: Feature)
    requires f != g
    ensures ParamMask(f) & ParamMask(g) == 0
  {
  }

  lemma RequestOrOther(word: bv32, f: Feature, g: Feature)
    requires f != g
    ensures (word | ParamMask(f)) & ParamMask(g) == word & ParamMask(g)
  {
    RequestApart(f, g);
    OrElsewhere(word, ParamMask(f), ParamMask(g));
  }

  lemma RequestAndNotOther(word: bv32, f: Feature, g: Feature)
    requires f != g
    ensures (word & !ParamMask(f)) & ParamMask(g) == word & ParamMask(g)
  {
    RequestApart(f, g);
    AndNotElsewhere(word, ParamMask(f), ParamMask(g));
  }

  lemma RequestOrSelf(word: bv32, f: Feature)
    ensures (word | ParamMask(f)) & ParamMask(f) != 0
  {
  }

  lemma RequestAndNotSelf(word: bv32, f: Feature)
    ensures (word & !ParamMask(f)) & ParamMask(f) == 0
  {
  }

  /** Or-ing in a feature's bit adds that feature and disturbs no other. */
  lemma RequestSet(word: bv32, f: Feature, g: Feature)
    ensures Requested(word | ParamMask(f), g) <==> (g == f || Requested(word, g))
  {
    if f == g {
      RequestOrSelf(word, f);
    } else {
      RequestOrOther(word, f, g);
    }
  }

  /** And-not with a feature's bit removes that feature only. */
  lemma RequestCleared(word: bv32, f: Feature, g: Feature)
    ensures Requested(word & !ParamMask(f), g) <==> (g != f && Requested(word, g))
  {
    if f == g {
      RequestAndNotSelf(word, f);
    } else {
      RequestAndNotOther(word, f, g);
    }
  }

  lemma ProtectApart(f: Feature, g: Feature)
    requires f != g
    ensures ProtectMask(f) & ProtectMask(g) == 0
  {
  }

  lemma ProtectOrOther(word: bv32, f: Feature, g: Feature)
    requires f != g
    ensures (word | ProtectMask(f)) & ProtectMask(g) == word & ProtectMask(g)
  {
    ProtectApart(f, g);
    OrElsewhere(word, ProtectMask(f), ProtectMask(g));
  }

  lemma ProtectAndNotOther(word: bv32, f: Feature, g: Feature)
    requires f != g
    ensures (word & !ProtectMask(f)) & ProtectMask(g) == word & ProtectMask(g)
  {
    ProtectApart(f, g);
    AndNotElsewhere(word, ProtectMask(f), ProtectMask(g));
  }

  lemma ProtectOrSelf(word: bv32, f: Feature)
    ensures (word | ProtectMask(f)) & ProtectMask(f) != 0
  {
  }

  lemma ProtectAndNotSelf(word: bv32, f: Feature)
    ensures (word & !ProtectMask(f)) & ProtectMask(f) == 0
  {
  }

  /** Or-ing in a feature's bit adds that feature and disturbs no other. */
  lemma ProtectSet(word: bv32, f: Feature, g: Feature)
    ensures Protected(word | ProtectMask(f), g) <==> (g == f || Protected(word, g))
  {
    if f == g {
      ProtectOrSelf(word, f);
    } else {
      ProtectOrOther(word, f, g);
    }
  }

  /** And-not with a feature's bit removes that feature only. */
  lemma ProtectCleared(word: bv32, f: Feature, g: Feature)
    ensures Protected(word & !ProtectMask(f), g) <==> (g != f && Protected(word, g))
  {
    if f == g {
      ProtectAndNotSelf(word, f);
    } else {
      ProtectAndNotOther(word, f, g);
    }
  }

  function AllFeatures(): set<Feature> {
    {Iso, Aperture, ExPro, FocusArea, Focus, Shutter, WhiteBal, StillCap}
  }

  lemma FullWord(g: Feature)
    ensures Requested(MAV_REQ_ALL_PARAM, g) && !Requested(0, g)
  {
  }

  /** The features a request word names; the shared word is a bit-coded set. */
  function RequestMembers(word: bv32): set<Feature> {
    set f: Feature | Requested(word, f)
  }

  function ProtectMembers(word: bv32): set<Feature> {
    set f: Feature | Protected(word, f)
  }

  /** The updates of a word are set insertion and set removal, and a request word never leaves 0..255. */
  lemma RequestAdded(word: bv32, f: Feature)
    ensures RequestMembers(word | ParamMask(f)) == RequestMembers(word) + {f}
  {
    forall g: Feature
      ensures g in RequestMembers(word | ParamMask(f)) <==> g in RequestMembers(word) + {f}
    {
      RequestSet(word, f, g);
    }
  }

  lemma RequestRemoved(word: bv32, f: Feature)
    ensures RequestMembers(word & !ParamMask(f)) == RequestMembers(word) - {f}
  {
    forall g: Feature
      ensures g in RequestMembers(word & !ParamMask(f)) <==> g in RequestMembers(word) - {f}
    {
      RequestCleared(word, f, g);
    }
  }

  lemma RequestRange(word: bv32, f: Feature)
    requires word <= 255
    ensures word | ParamMask(f) <= 255
    ensures word & !ParamMask(f) <= 255
  {
  }

  lemma ProtectAdded(word: bv32, f: Feature)
    ensures ProtectMembers(word | ProtectMask(f)) == ProtectMembers(word) + {f}
  {
    forall g: Feature
      ensures g in ProtectMembers(word | ProtectMask(f)) <==> g in ProtectMembers(word) + {f}
    {
      ProtectSet(word, f, g);
    }
  }

  lemma ProtectRemoved(word: bv32, f: Feature)
    ensures ProtectMembers(word & !ProtectMask(f)) == ProtectMembers(word) - {f}
  {
    forall g: Feature
      ensures g in ProtectMembers(word & !ProtectMask(f)) <==> g in ProtectMembers(word) - {f}
    {
      ProtectCleared(word, f, g);
    }
  }

  /** Assigning 255 requests every feature, and within 0..255 the word is 0 exactly when no feature is requested. */
  lemma WholeRequestWord(word: bv32)
    requires word <= 255
    ensures RequestMembers(MAV_REQ_ALL_PARAM) == AllFeatures()
    ensures word == 0 <==> RequestMembers(word) == {}
  {
    forall f: Feature
      ensures f in RequestMembers(MAV_REQ_ALL_PARAM) && f !in RequestMembers(0) && f in AllFeatures()
    {
      FullWord(f);
    }
    if RequestMembers(word) == {} {
      forall f: Feature
        ensures !Requested(word, f)
      {
        assert f !in RequestMembers(word);
      }
      NothingRequested(word);
    }
  }

  lemma NothingRequested(word: bv32)
    requires word <= 255
    requires forall f: Feature :: !Requested(word, f)
    ensures word == 0
  {
    assert !Requested(word, StillCap) && !Requested(word, WhiteBal) && !Requested(word, Shutter)
        && !Requested(word, Iso);
    assert !Requested(word, Focus) && !Requested(word, FocusArea) && !Requested(word, Aperture)
        && !Requested(word, ExPro);
  }

  // ---------- the shared signed 32-bit slot ----------

  predicate InSlot(v: int) {
    -0x8000_0000 <= v < 0x8000_0000
  }

  /** Storing an integer into the shared 'i' slot keeps its low 32 bits, read as a signed number. */
  function ToSlot(v: int): (r: int)
    ensures InSlot(r)
    ensures InSlot(v) ==> r == v
    ensures (r - v) % 0x1_0000_0000 == 0
  {
    (v + 0x8000_0000) % 0x1_0000_0000 - 0x8000_0000
  }

  // ---------- one value per feature ----------

  /** A slot per feature; a slot not written yet holds STATE_INIT. */
  type Slots = map<Feature, int>

  function At(slots: Slots, f: Feature): int {
    if f in slots then slots[f] else STATE_INIT
  }
}
