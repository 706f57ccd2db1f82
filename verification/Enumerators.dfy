/** Validation of a requested value: which requests the bridge passes to the camera, and as which option code. */
module Enumerators {
  import opened Features

  function EnumerateIso(num: int): Option<int> {
    match num
    case 0 => Some(0) case 50 => Some(1) case 64 => Some(2) case 80 => Some(3) case 100 => Some(4)
    case 125 => Some(5) case 160 => Some(6) case 200 => Some(7) case 250 => Some(8) case 320 => Some(9)
    case 400 => Some(10) case 500 => Some(11) case 640 => Some(12) case 800 => Some(13) case 1000 => Some(14)
    case 1250 => Some(15) case 1600 => Some(16) case 2000 => Some(17) case 2500 => Some(18)
    case 3200 => Some(19) case 4000 => Some(20) case 5000 => Some(21) case 6400 => Some(22)
    case 8000 => Some(23) case 10000 => Some(24) case 12800 => Some(25) case 16000 => Some(26)
    case 20000 => Some(27) case 25600 => Some(28) case 32000 => Some(29) case 40000 => Some(30)
    case 51200 => Some(31) case 64000 => Some(32) case 80000 => Some(33) case 102400 => Some(34)
    case _ => None
  }

  function EnumerateAperture(num: int): Option<int> {
    match num
    case 280 => Some(0) case 320 => Some(1) case 350 => Some(2) case 400 => Some(3) case 450 => Some(4)
    case 500 => Some(5) case 560 => Some(6) case 630 => Some(7) case 710 => Some(8) case 800 => Some(9)
    case 900 => Some(10) case 1000 => Some(11) case 1100 => Some(12) case 1300 => Some(13)
    case 1400 => Some(14) case 1600 => Some(15) case 1800 => Some(16) case 2000 => Some(17)
    case 2200 => Some(18)
    case _ => None
  }

  function EnumerateExPro(num: int): Option<int> {
    match num
    case 32850 => Some(2) case 32848 => Some(0) case 32849 => Some(1) case 32851 => Some(3)
    case _ => None
  }

  function EnumerateFocusArea(num: int): Option<int> {
    if 1 <= num <= 7 then Some(num - 1) else None
  }

  function EnumerateFocus(num: int): Option<int> {
    match num
    case 2 => Some(0) case 4 => Some(1) case 3 => Some(2) case 6 => Some(3) case 1 => Some(4)
    case _ => None
  }

  /** The branch for 0 is not part of the chain that follows it, so 0 reaches the rejecting else. */
  function EnumerateShutter(num: int): Option<int> {
    match num
    case 19660810 => Some(1) case 16384010 => Some(2) case 13107210 => Some(3) case 9830410 => Some(4)
    case 8519690 => Some(5) case 6553610 => Some(6) case 5242890 => Some(7) case 3932170 => Some(8)
    case 3276810 => Some(9) case 2621450 => Some(10) case 2097162 => Some(11) case 1638410 => Some(12)
    case 1310730 => Some(13) case 1048586 => Some(14) case 851978 => Some(15) case 655370 => Some(16)
    case 524298 => Some(17) case 393226 => Some(18) case 327690 => Some(19) case 262154 => Some(20)
    case 65539 => Some(21) case 65540 => Some(22) case 65541 => Some(23) case 65542 => Some(24)
    case 65544 => Some(25) case 65546 => Some(26) case 65549 => Some(27) case 65551 => Some(28)
    case 65556 => Some(29) case 65561 => Some(30) case 65566 => Some(31) case 65576 => Some(32)
    case 65586 => Some(33) case 65596 => Some(34) case 65616 => Some(35) case 65636 => Some(36)
    case 65661 => Some(37) case 65696 => Some(38) case 65736 => Some(39) case 65786 => Some(40)
    case 65856 => Some(41) case 65936 => Some(42) case 66036 => Some(43) case 66176 => Some(44)
    case 66336 => Some(45) case 66536 => Some(46) case 66786 => Some(47) case 67136 => Some(48)
    case 67536 => Some(49) case 68036 => Some(50) case 68736 => Some(51) case 69536 => Some(52)
    case 70536 => Some(53) case 71936 => Some(54) case 73536 => Some(55)
    case _ => None
  }

  function EnumerateWhiteBal(num: int): Option<int> {
    match num
    case 0 => Some(0) case 17 => Some(1) case 18 => Some(2) case 19 => Some(3) case 20 => Some(4)
    case 33 => Some(5) case 34 => Some(6) case 35 => Some(7) case 36 => Some(8) case 48 => Some(9)
    case 1 => Some(10) case 256 => Some(11) case 257 => Some(12) case 258 => Some(13) case 259 => Some(14)
    case _ => None
  }

  function EnumerateStillCap(num: int): Option<int> {
    match num
    case 65543 => Some(2) case 1 => Some(0) case 65540 => Some(1) case 65537 => Some(3) case 65538 => Some(4)
    case 196611 => Some(5) case 196610 => Some(6) case 196609 => Some(7) case 524289 => Some(8)
    case 524290 => Some(9) case 524293 => Some(10) case 524294 => Some(11) case 524251 => Some(12)
    case 524292 => Some(13) case 393218 => Some(46) case 393217 => Some(47) case 458754 => Some(48)
    case 458753 => Some(49)
    case _ =>
      if 262913 <= num <= 262928 then Some(14 + (num - 262913))
      else if 327681 <= num <= 327696 then Some(30 + (num - 327681))
      else None
  }

  function Enumerate(f: Feature, num: int): Option<int> {
    match f
    case Iso => EnumerateIso(num)
    case Aperture => EnumerateAperture(num)
    case ExPro => EnumerateExPro(num)
    case FocusArea => EnumerateFocusArea(num)
    case Focus => EnumerateFocus(num)
    case Shutter => EnumerateShutter(num)
    case WhiteBal => EnumerateWhiteBal(num)
    case StillCap => EnumerateStillCap(num)
  }

  // ---------- the camera's option table, option code to value ----------

  function IsoOption(code: int): Option<int> {
    match code
    case 0 => Some(0) case 1 => Some(50) case 2 => Some(64) case 3 => Some(80) case 4 => Some(100)
    case 5 => Some(125) case 6 => Some(160) case 7 => Some(200) case 8 => Some(250) case 9 => Some(320)
    case 10 => Some(400) case 11 => Some(500) case 12 => Some(640) case 13 => Some(800) case 14 => Some(1000)
    case 15 => Some(1250) case 16 => Some(1600) case 17 => Some(2000) case 18 => Some(2500)
    case 19 => Some(3200) case 20 => Some(4000) case 21 => Some(5000) case 22 => Some(6400)
    case 23 => Some(8000) case 24 => Some(10000) case 25 => Some(12800) case 26 => Some(16000)
    case 27 => Some(20000) case 28 => Some(25600) case 29 => Some(32000) case 30 => Some(40000)
    case 31 => Some(51200) case 32 => Some(64000) case 33 => Some(80000) case 34 => Some(102400)
    case _ => None
  }

  function ApertureOption(code: int): Option<int> {
    match code
    case 0 => Some(280) case 1 => Some(320) case 2 => Some(350) case 3 => Some(400) case 4 => Some(450)
    case 5 => Some(500) case 6 => Some(560) case 7 => Some(630) case 8 => Some(710) case 9 => Some(800)
    case 10 => Some(900) case 11 => Some(1000) case 12 => Some(1100) case 13 => Some(1300)
    case 14 => Some(1400) case 15 => Some(1600) case 16 => Some(1800) case 17 => Some(2000)
    case 18 => Some(2200)
    case _ => None
  }

  function ExProOption(code: int): Option<int> {
    match code
    case 0 => Some(32848) case 1 => Some(32849) case 2 => Some(32850) case 3 => Some(32851)
    case _ => None
  }

  function FocusOption(code: int): Option<int> {
    match code
    case 0 => Some(2) case 1 => Some(4) case 2 => Some(3) case 3 => Some(6) case 4 => Some(1)
    case _ => None
  }

  function ShutterOption(code: int): Option<int> {
    match code
    case 1 => Some(19660810) case 2 => Some(16384010) case 3 => Some(13107210) case 4 => Some(9830410)
    case 5 => Some(8519690) case 6 => Some(6553610) case 7 => Some(5242890) case 8 => Some(3932170)
    case 9 => Some(3276810) case 10 => Some(2621450) case 11 => Some(2097162) case 12 => Some(1638410)
    case 13 => Some(1310730) case 14 => Some(1048586) case 15 => Some(851978) case 16 => Some(655370)
    case 17 => Some(524298) case 18 => Some(393226) case 19 => Some(327690) case 20 => Some(262154)
    case 21 => Some(65539) case 22 => Some(65540) case 23 => Some(65541) case 24 => Some(65542)
    case 25 => Some(65544) case 26 => Some(65546) case 27 => Some(65549) case 28 => Some(65551)
    case 29 => Some(65556) case 30 => Some(65561) case 31 => Some(65566) case 32 => Some(65576)
    case 33 => Some(65586) case 34 => Some(65596) case 35 => Some(65616) case 36 => Some(65636)
    case 37 => Some(65661) case 38 => Some(65696) case 39 => Some(65736) case 40 => Some(65786)
    case 41 => Some(65856) case 42 => Some(65936) case 43 => Some(66036) case 44 => Some(66176)
    case 45 => Some(66336) case 46 => Some(66536) case 47 => Some(66786) case 48 => Some(67136)
    case 49 => Some(67536) case 50 => Some(68036) case 51 => Some(68736) case 52 => Some(69536)
    case 53 => Some(70536) case 54 => Some(71936) case 55 => Some(73536)
    case _ => None
  }

  function WhiteBalOption(code: int): Option<int> {
    match code
    case 0 => Some(0) case 1 => Some(17) case 2 => Some(18) case 3 => Some(19) case 4 => Some(20)
    case 5 => Some(33) case 6 => Some(34) case 7 => Some(35) case 8 => Some(36) case 9 => Some(48)
    case 10 => Some(1) case 11 => Some(256) case 12 => Some(257) case 13 => Some(258) case 14 => Some(259)
    case _ => None
  }

  function StillCapOption(code: int): Option<int> {
    match code
    case 0 => Some(1) case 1 => Some(65540) case 2 => Some(65543) case 3 => Some(65537) case 4 => Some(65538)
    case 5 => Some(196611) case 6 => Some(196610) case 7 => Some(196609) case 8 => Some(524289)
    case 9 => Some(524290) case 10 => Some(524293) case 11 => Some(524294) case 12 => Some(524251)
    case 13 => Some(524292) case 46 => Some(393218) case 47 => Some(393217) case 48 => Some(458754)
    case 49 => Some(458753)
    case _ =>
      if 14 <= code <= 29 then Some(262913 + (code - 14))
      else if 30 <= code <= 45 then Some(327681 + (code - 30))
      else None
  }

  function CameraOption(f: Feature, code: int): Option<int> {
    match f
    case Iso => IsoOption(code)
    case Aperture => ApertureOption(code)
    case ExPro => ExProOption(code)
    case FocusArea => if 0 <= code <= 6 then Some(code + 1) else None
    case Focus => FocusOption(code)
    case Shutter => ShutterOption(code)
    case WhiteBal => WhiteBalOption(code)
    case StillCap => StillCapOption(code)
  }

  function LowestCode(f: Feature): int {
    if f == Shutter then 1 else 0
  }

  function HighestCode(f: Feature): int {
    match f
    case Iso => 34
    case Aperture => 18
    case ExPro => 3
    case FocusArea => 6
    case Focus => 4
    case Shutter => 55
    case WhiteBal => 14
    case StillCap => 49
  }

  // ---------- what the enumerators promise ----------

  lemma IsoInverse(num: int)
    requires EnumerateIso(num).Some?
    ensures IsoOption(EnumerateIso(num).value) == Some(num) && 0 <= num < 0x7F80_0000 && num != STATE_INIT
    ensures LowestCode(Iso) <= EnumerateIso(num).value <= HighestCode(Iso)
  {
    if num <= 2500 {
    } else {
    }
  }

  lemma IsoOnto(code: int)
    requires LowestCode(Iso) <= code <= HighestCode(Iso)
    ensures IsoOption(code).Some? && EnumerateIso(IsoOption(code).value) == Some(code)
  {
  }

  lemma ApertureInverse(num: int)
    requires EnumerateAperture(num).Some?
    ensures ApertureOption(EnumerateAperture(num).value) == Some(num) && 0 <= num < 0x7F80_0000 && num != STATE_INIT
    ensures LowestCode(Aperture) <= EnumerateAperture(num).value <= HighestCode(Aperture)
  {
  }

  lemma ApertureOnto(code: int)
    requires LowestCode(Aperture) <= code <= HighestCode(Aperture)
    ensures ApertureOption(code).Some? && EnumerateAperture(ApertureOption(code).value) == Some(code)
  {
  }

  lemma ExProInverse(num: int)
    requires EnumerateExPro(num).Some?
    ensures ExProOption(EnumerateExPro(num).value) == Some(num) && 0 <= num < 0x7F80_0000 && num != STATE_INIT
    ensures LowestCode(ExPro) <= EnumerateExPro(num).value <= HighestCode(ExPro)
  {
  }

  lemma ExProOnto(code: int)
    requires LowestCode(ExPro) <= code <= HighestCode(ExPro)
    ensures ExProOption(code).Some? && EnumerateExPro(ExProOption(code).value) == Some(code)
  {
  }

  lemma FocusInverse(num: int)
    requires EnumerateFocus(num).Some?
    ensures FocusOption(EnumerateFocus(num).value) == Some(num) && 0 <= num < 0x7F80_0000 && num != STATE_INIT
    ensures LowestCode(Focus) <= EnumerateFocus(num).value <= HighestCode(Focus)
  {
  }

  lemma FocusOnto(code: int)
    requires LowestCode(Focus) <= code <= HighestCode(Focus)
    ensures FocusOption(code).Some? && EnumerateFocus(FocusOption(code).value) == Some(code)
  {
  }

  lemma ShutterInverse(num: int)
    requires EnumerateShutter(num).Some?
    ensures ShutterOption(EnumerateShutter(num).value) == Some(num) && 0 <= num < 0x7F80_0000 && num != STATE_INIT
    ensures LowestCode(Shutter) <= EnumerateShutter(num).value <= HighestCode(Shutter)
  {
    if num <= 65696 {
    } else {
    }
  }

  lemma ShutterOnto(code: int)
    requires LowestCode(Shutter) <= code <= HighestCode(Shutter)
    ensures ShutterOption(code).Some? && EnumerateShutter(ShutterOption(code).value) == Some(code)
  {
  }

  lemma WhiteBalInverse(num: int)
    requires EnumerateWhiteBal(num).Some?
    ensures WhiteBalOption(EnumerateWhiteBal(num).value) == Some(num) && 0 <= num < 0x7F80_0000 && num != STATE_INIT
    ensures LowestCode(WhiteBal) <= EnumerateWhiteBal(num).value <= HighestCode(WhiteBal)
  {
  }

  lemma WhiteBalOnto(code: int)
    requires LowestCode(WhiteBal) <= code <= HighestCode(WhiteBal)
    ensures WhiteBalOption(code).Some? && EnumerateWhiteBal(WhiteBalOption(code).value) == Some(code)
  {
  }

  lemma StillCapInverse(num: int)
    requires EnumerateStillCap(num).Some?
    ensures StillCapOption(EnumerateStillCap(num).value) == Some(num) && 0 <= num < 0x7F80_0000 && num != STATE_INIT
    ensures LowestCode(StillCap) <= EnumerateStillCap(num).value <= HighestCode(StillCap)
  {
  }

  lemma StillCapOnto(code: int)
    requires LowestCode(StillCap) <= code <= HighestCode(StillCap)
    ensures StillCapOption(code).Some? && EnumerateStillCap(StillCapOption(code).value) == Some(code)
  {
  }

  /** The option table undoes validation; only in-range codes are produced, and never for the uninitialised mark. */
  lemma OptionOfRequest(f: Feature, num: int)
    requires Enumerate(f, num).Some?
    ensures CameraOption(f, Enumerate(f, num).value) == Some(num)
    ensures LowestCode(f) <= Enumerate(f, num).value <= HighestCode(f)
    ensures 0 <= num < 0x7F80_0000 && InSlot(num) && num != STATE_INIT
  {
    match f
    case Iso => IsoInverse(num);
    case Aperture => ApertureInverse(num);
    case ExPro => ExProInverse(num);
    case FocusArea =>
    case Focus => FocusInverse(num);
    case Shutter => ShutterInverse(num);
    case WhiteBal => WhiteBalInverse(num);
    case StillCap => StillCapInverse(num);
  }

  /** Every option code in the feature's range is the code of an accepted request: the image has no gap. */
  lemma RequestOfOption(f: Feature, code: int)
    requires LowestCode(f) <= code <= HighestCode(f)
    ensures CameraOption(f, code).Some?
    ensures Enumerate(f, CameraOption(f, code).value) == Some(code)
  {
    match f
    case Iso => IsoOnto(code);
    case Aperture => ApertureOnto(code);
    case ExPro => ExProOnto(code);
    case FocusArea =>
    case Focus => FocusOnto(code);
    case Shutter => ShutterOnto(code);
    case WhiteBal => WhiteBalOnto(code);
    case StillCap => StillCapOnto(code);
  }

  /** No two accepted requests share an option code. */
  lemma EnumerateInjective(f: Feature, a: int, b: int)
    requires Enumerate(f, a).Some? && Enumerate(f, a) == Enumerate(f, b)
    ensures a == b
  {
    OptionOfRequest(f, a);
    OptionOfRequest(f, b);
  }

  lemma ReservedIsNoOption(f: Feature)
    ensures Enumerate(f, STATE_INIT).None?
  {
  }
}
