/**
 * The section sequencer of the vault interior: the fixed six-section tour, the
 * clamping of the reducer's current section, prev/next gating, the floating
 * call-to-action, the "NN / 06" counter and the navigation dots.
 */
module Sequencer {
  import opened Wrappers
  import Text
  import Vault

  datatype SectionConfig = SectionConfig(id: string, title: string, navLabel: string)

  const Sections: seq<SectionConfig> := [
    SectionConfig("intro", "Prisi Ops", "Intro"),
    SectionConfig("services", "Services", "Services"),
    SectionConfig("process", "Process", "Process"),
    SectionConfig("work", "Work", "Work"),
    SectionConfig("tools", "Tech Stack", "Tools"),
    SectionConfig("connect", "Connect", "Connect")
  ]

  const TotalSections: nat := |Sections|

  /** `Math.max(0, Math.min(currentSection, totalSections - 1))`. */
  function Clamp(currentSection: int): (c: nat)
    ensures c < TotalSections
    ensures 0 <= currentSection < TotalSections ==> c == currentSection
    ensures currentSection < 0 ==> c == 0
    ensures currentSection >= TotalSections ==> c == TotalSections - 1
  {
    var upper := if currentSection < TotalSections - 1 then currentSection else TotalSections - 1;
    if 0 > upper then 0 else upper
  }

  /** Clamping twice is clamping once. */
  lemma ClampIdempotent(currentSection: int)
    ensures Clamp(Clamp(currentSection)) == Clamp(currentSection)
  {
  }

  /** `canGoPrevious`: the prev button is enabled exactly above the first section. */
  function CanGoPrevious(currentSection: int): (enabled: bool)
    ensures enabled <==> currentSection > 0
  {
    Clamp(currentSection) > 0
  }

  /** `canGoNext`: the next button is enabled exactly below the last section. */
  function CanGoNext(currentSection: int): (enabled: bool)
    ensures enabled <==> currentSection < TotalSections - 1
  {
    Clamp(currentSection) < TotalSections - 1
  }

  /**
   * `handlePrevious`: the section passed to `onNavigate`, or nothing at the first
   * section; it dispatches exactly when the prev button is enabled.
   */
  function HandlePrevious(currentSection: int): (target: Option<int>)
    ensures target.Some? <==> CanGoPrevious(currentSection)
    ensures target.Some? ==> target.value == Clamp(currentSection) - 1 && 0 <= target.value < TotalSections
  {
    var clamped := Clamp(currentSection);
    if clamped > 0 then Some(clamped - 1) else None
  }

  /**
   * `handleNext`: the section passed to `onNavigate`, or nothing at the last
   * section; it dispatches exactly when the next button is enabled.
   */
  function HandleNext(currentSection: int): (target: Option<int>)
    ensures target.Some? <==> CanGoNext(currentSection)
    ensures target.Some? ==> target.value == Clamp(currentSection) + 1 && 0 <= target.value < TotalSections
  {
    var clamped := Clamp(currentSection);
    if clamped < TotalSections - 1 then Some(clamped + 1) else None
  }

  /**
   * `shouldShowCTA`: the floating call-to-action is hidden exactly on the "connect"
   * section, which is also the only section without a next one.
   */
  function ShouldShowCta(currentSection: int): (shown: bool)
    ensures !shown <==> Sections[Clamp(currentSection)].id == "connect"
    ensures shown <==> CanGoNext(currentSection)
  {
    Clamp(currentSection) != 5
  }

  /** The counter `String(clamped + 1).padStart(2, '0') / String(total).padStart(2, '0')`: always "0d / 06". */
  function CounterLabel(currentSection: int): (counter: string)
    ensures counter == ['0', Text.DigitChar(Clamp(currentSection) + 1)] + " / 06"
    ensures |counter| == 7
  {
    var c := Clamp(currentSection);
    assert Text.NatToDecimal(c + 1) == [Text.DigitChar(c + 1)];
    assert Text.NatToDecimal(TotalSections) == ['6'];
    assert Text.PadStart([Text.DigitChar(c + 1)], 2, '0') == ['0', Text.DigitChar(c + 1)];
    assert Text.PadStart(['6'], 2, '0') == "06";
    Text.PadStart(Text.NatToDecimal(c + 1), 2, '0') + " / "
      + Text.PadStart(Text.NatToDecimal(TotalSections), 2, '0')
  }

  /**
   * Which navigation dot carries `aria-current="step"`, one flag per section:
   * the dot of the clamped section, and no other.
   */
  function AriaCurrentDots(currentSection: int): (dots: seq<bool>)
    ensures |dots| == TotalSections
    ensures dots[Clamp(currentSection)]
    ensures forall i, j :: 0 <= i < j < |dots| && dots[i] ==> !dots[j]
  {
    var clamped := Clamp(currentSection);
    seq(TotalSections, i => i == clamped)
  }

  /** A control of the interior: the prev/next buttons or the dot at an index. */
  datatype Control = Previous | Next | Dot(index: nat)

  /**
   * What `onNavigate` receives when a control is used: always a section of the
   * tour, and nothing only for a disabled prev or next button.
   */
  function Target(currentSection: int, control: Control): (target: Option<int>)
    requires control.Dot? ==> control.index < TotalSections
    ensures target.Some? ==> 0 <= target.value < TotalSections
    ensures target.None? <==>
      (control.Previous? && !CanGoPrevious(currentSection)) || (control.Next? && !CanGoNext(currentSection))
  {
    match control
    case Previous => HandlePrevious(currentSection)
    case Next => HandleNext(currentSection)
    case Dot(i) => Some(i)
  }

  predicate InRange(s: Vault.VaultState)
  {
    0 <= s.currentSection < TotalSections
    && forall i :: 0 <= i < |s.unlockedSections| ==> 0 <= s.unlockedSections[i] < TotalSections
  }

  /**
   * The interior wired to the reducer: use a control, dispatch NAVIGATE when it
   * targets a section. From an in-range state it never moves the current section
   * or records a section outside the tour, so the reducer's missing upper clamp is
   * never exercised; the flags are untouched and no visited section is forgotten.
   */
  function Step(s: Vault.VaultState, control: Control): (r: Vault.VaultState)
    requires control.Dot? ==> control.index < TotalSections
    ensures InRange(s) ==> InRange(r) && Clamp(r.currentSection) == r.currentSection
    ensures r.isUnlocked == s.isUnlocked && r.hasEntered == s.hasEntered
    ensures s.unlockedSections <= r.unlockedSections
  {
    match Target(s.currentSection, control)
    case None => s
    case Some(n) =>
      assert Vault.Reduce(s, Vault.Navigate(n)).unlockedSections == Vault.AddIfAbsent(s.unlockedSections, n);
      Vault.Reduce(s, Vault.Navigate(n))
  }

  /** Next then Previous returns to the section one started from, unless already at the end. */
  lemma NextThenPrevious(s: Vault.VaultState)
    requires InRange(s) && s.currentSection < TotalSections - 1
    ensures Step(Step(s, Next), Previous).currentSection == s.currentSection
  {
  }

  /** Previous then Next returns to the section one started from, unless already at the start. */
  lemma PreviousThenNext(s: Vault.VaultState)
    requires InRange(s) && s.currentSection > 0
    ensures Step(Step(s, Previous), Next).currentSection == s.currentSection
  {
  }

  /** At the first section Previous is inert; at the last one Next is inert. */
  lemma EndsAreInert(s: Vault.VaultState)
    ensures Clamp(s.currentSection) == 0 ==> Step(s, Previous) == s
    ensures Clamp(s.currentSection) == TotalSections - 1 ==> Step(s, Next) == s
  {
  }
}
