/**
 * The security level indicator: one marker per level, each active, unlocked or
 * locked relative to the current level, with an optional custom label; plus the
 * progress bar's aria range and the "current/total" footer.
 */
module SecurityLevels {
  import opened Wrappers
  import Text

  /** `Array.from({ length: totalLevels }, (_, i) => i)`; a negative length gives no levels. */
  function Levels(totalLevels: int): (levels: seq<int>)
    ensures |levels| == if totalLevels < 0 then 0 else totalLevels
    ensures forall i :: 0 <= i < |levels| ==> levels[i] == i
  {
    var n := if totalLevels < 0 then 0 else totalLevels;
    seq(n, i => i)
  }

  /** `levelLabels?.[level] ?? \`L${level + 1}\``. */
  function LabelFor(level: nat, levelLabels: Option<seq<string>>): (caption: string)
    ensures levelLabels.Some? && level < |levelLabels.value| ==> caption == levelLabels.value[level]
    ensures levelLabels.None? || level >= |levelLabels.value| ==> caption == "L" + Text.NatToDecimal(level + 1)
  {
    if levelLabels.Some? && level < |levelLabels.value| then levelLabels.value[level]
    else "L" + Text.NatToDecimal(level + 1)
  }

  datatype Marker = Marker(level: int, isActive: bool, isUnlocked: bool, caption: string)

  /**
   * The marker of one level: unlocked unless it lies above the current level, and
   * active when it is unlocked and not below the current level, so only an unlocked
   * marker can be active.
   */
  function MarkerFor(level: nat, currentLevel: int, levelLabels: Option<seq<string>>): (m: Marker)
    ensures m.level == level && m.caption == LabelFor(level, levelLabels)
    ensures m.isUnlocked <==> !(currentLevel < level)
    ensures m.isActive <==> m.isUnlocked && !(level < currentLevel)
    ensures m.isActive ==> m.isUnlocked
  {
    Marker(level, level == currentLevel, level <= currentLevel, LabelFor(level, levelLabels))
  }

  /** The markers, bottom level first. */
  function Markers(totalLevels: int, currentLevel: int, levelLabels: Option<seq<string>>): (ms: seq<Marker>)
    ensures |ms| == |Levels(totalLevels)|
    ensures forall i :: 0 <= i < |ms| ==> ms[i] == MarkerFor(i, currentLevel, levelLabels)
  {
    var n := |Levels(totalLevels)|;
    seq(n, i requires 0 <= i < n => MarkerFor(i, currentLevel, levelLabels))
  }

  /** Each marker is for its own level; active means "the current level"; active implies unlocked. */
  lemma MarkerStatus(totalLevels: int, currentLevel: int, levelLabels: Option<seq<string>>, i: nat)
    requires i < |Markers(totalLevels, currentLevel, levelLabels)|
    ensures Markers(totalLevels, currentLevel, levelLabels)[i].level == Levels(totalLevels)[i] == i
    ensures Markers(totalLevels, currentLevel, levelLabels)[i].isActive <==> i == currentLevel
    ensures Markers(totalLevels, currentLevel, levelLabels)[i].isUnlocked <==> i <= currentLevel
    ensures Markers(totalLevels, currentLevel, levelLabels)[i].isActive
            ==> Markers(totalLevels, currentLevel, levelLabels)[i].isUnlocked
  {
  }

  /** At most one marker is active. */
  lemma AtMostOneActive(totalLevels: int, currentLevel: int, levelLabels: Option<seq<string>>, i: nat, j: nat)
    requires i < |Markers(totalLevels, currentLevel, levelLabels)| && j < |Markers(totalLevels, currentLevel, levelLabels)|
    requires Markers(totalLevels, currentLevel, levelLabels)[i].isActive
    requires Markers(totalLevels, currentLevel, levelLabels)[j].isActive
    ensures i == j
  {
  }

  /** The number of unlocked markers among `ms`. */
  function CountUnlocked(ms: seq<Marker>): nat
  {
    if ms == [] then 0
    else CountUnlocked(ms[..|ms| - 1]) + (if ms[|ms| - 1].isUnlocked then 1 else 0)
  }

  /** Exactly the levels 0 .. currentLevel that exist are unlocked: min(total, current + 1) of them. */
  lemma {:induction false} UnlockedCount(totalLevels: nat, currentLevel: int, levelLabels: Option<seq<string>>)
    ensures CountUnlocked(Markers(totalLevels, currentLevel, levelLabels))
         == if currentLevel < 0 then 0
            else if currentLevel + 1 < totalLevels then currentLevel + 1 else totalLevels
  {
    if totalLevels > 0 {
      var ms := Markers(totalLevels, currentLevel, levelLabels);
      assert ms[..|ms| - 1] == Markers(totalLevels - 1, currentLevel, levelLabels);
      UnlockedCount(totalLevels - 1, currentLevel, levelLabels);
    }
  }

  /** A custom label, even the empty string, wins over the default; the default is "L<n>". */
  lemma LabelFallback(level: nat, labels: seq<string>)
    ensures level < |labels| && labels[level] == "" ==> LabelFor(level, Some(labels)) == ""
    ensures level >= |labels| ==> LabelFor(level, Some(labels)) == LabelFor(level, None)
    ensures LabelFor(level, None)[0] == 'L'
    ensures Text.DecimalValue(LabelFor(level, None)[1..]) == level + 1
  {
    var d := Text.NatToDecimal(level + 1);
    assert LabelFor(level, None)[1..] == d;
    Text.DecimalRoundTrip(level + 1);
  }

  /** The progress bar's `aria-valuemin` and `aria-valuemax`. */
  function AriaRange(totalLevels: int): (range: (int, int))
    ensures range.0 == 0
    ensures totalLevels > 0 ==> range.1 == |Levels(totalLevels)| - 1 == Levels(totalLevels)[|Levels(totalLevels)| - 1]
  {
    (0, totalLevels - 1)
  }

  /**
   * The footer `${currentLevel + 1}/${totalLevels}`: its only "/" sits right after
   * the numeral of level + 1, and the numeral of the total follows it.
   */
  function Footer(currentLevel: int, totalLevels: int): (footer: string)
    ensures var k := |Text.IntToDecimal(currentLevel + 1)|;
      && k < |footer| && footer[k] == '/'
      && '/' !in footer[..k] && '/' !in footer[k + 1..]
      && footer[..k] == Text.IntToDecimal(currentLevel + 1)
      && footer[k + 1..] == Text.IntToDecimal(totalLevels)
  {
    Text.IntToDecimal(currentLevel + 1) + "/" + Text.IntToDecimal(totalLevels)
  }

  /** For a real position the footer is two numerals around one "/", reading back as level + 1 and total. */
  lemma FooterReadsBack(currentLevel: nat, totalLevels: nat)
    ensures Footer(currentLevel, totalLevels)
         == Text.NatToDecimal(currentLevel + 1) + "/" + Text.NatToDecimal(totalLevels)
    ensures '/' !in Text.NatToDecimal(currentLevel + 1) && '/' !in Text.NatToDecimal(totalLevels)
    ensures Text.DecimalValue(Text.NatToDecimal(currentLevel + 1)) == currentLevel + 1
    ensures Text.DecimalValue(Text.NatToDecimal(totalLevels)) == totalLevels
  {
    Text.DecimalRoundTrip(currentLevel + 1);
    Text.DecimalRoundTrip(totalLevels);
  }
}
