/**
 * The vault navigation reducer: a pure transition function over the session
 * state, driven by four action kinds (plus any unrecognised action, which the
 * reducer's `default` branch leaves without effect).
 */
module Vault {

  /** `VaultState`: unlock/entry flags, the current section and the visited sections in visit order. */
  datatype VaultState = VaultState(
    isUnlocked: bool,
    hasEntered: bool,
    currentSection: int,
    unlockedSections: seq<int>)

  /** `NavigationAction`; `Other` stands for a dispatched object whose `type` is none of the four. */
  datatype Action =
    | Unlock
    | Enter
    | Navigate(payload: int)
    | UnlockSection(payload: int)
    | Other(kind: string)

  /** The state the provider starts from when no custom initial state is given. */
  const Initial := VaultState(false, false, 0, [])

  /** `[...xs, x]` unless `xs.includes(x)`, in which case the very same list. */
  function AddIfAbsent(xs: seq<int>, x: int): (r: seq<int>)
    ensures x in r
    ensures x in xs ==> r == xs
    ensures x !in xs ==> r == xs + [x]
  {
    if x in xs then xs else xs + [x]
  }

  predicate NoDuplicates(xs: seq<int>)
  {
    forall i, j :: 0 <= i < j < |xs| ==> xs[i] != xs[j]
  }

  /**
   * `vaultReducer(state, action)`. Whatever the state, no action clears a flag or
   * forgets a visited section (the old list stays a prefix of the new one); a
   * duplicate-free list stays duplicate-free, and a non-negative section stays
   * non-negative.
   */
  function Reduce(s: VaultState, a: Action): (r: VaultState)
    ensures s.unlockedSections <= r.unlockedSections
    ensures s.isUnlocked ==> r.isUnlocked
    ensures s.hasEntered ==> r.hasEntered
    ensures NoDuplicates(s.unlockedSections) ==> NoDuplicates(r.unlockedSections)
    ensures s.currentSection >= 0 ==> r.currentSection >= 0
  {
    match a
    case Unlock => s.(isUnlocked := true)
    case Enter => s.(hasEntered := true, unlockedSections := AddIfAbsent(s.unlockedSections, 0))
    case Navigate(n) =>
      var clamped := if 0 > n then 0 else n;
      s.(currentSection := clamped, unlockedSections := AddIfAbsent(s.unlockedSections, clamped))
    case UnlockSection(n) =>
      if n in s.unlockedSections then s
      else s.(unlockedSections := s.unlockedSections + [n])
    case Other(_) => s
  }

  /**
   * The state after dispatching `actions` one after another, as `useReducer` does;
   * over the whole run the same things hold as for a single step.
   */
  function Run(s: VaultState, actions: seq<Action>): (r: VaultState)
    ensures s.unlockedSections <= r.unlockedSections
    ensures s.isUnlocked ==> r.isUnlocked
    ensures s.hasEntered ==> r.hasEntered
    ensures NoDuplicates(s.unlockedSections) ==> NoDuplicates(r.unlockedSections)
    ensures s.currentSection >= 0 ==> r.currentSection >= 0
    decreases |actions|
  {
    if actions == [] then s else Run(Reduce(s, actions[0]), actions[1..])
  }

  /** The properties every state reachable from `Initial` has. */
  predicate WellFormed(s: VaultState)
  {
    NoDuplicates(s.unlockedSections) && s.currentSection >= 0
  }

  lemma InitialState()
    ensures !Initial.isUnlocked && !Initial.hasEntered
    ensures Initial.currentSection == 0 && Initial.unlockedSections == []
    ensures WellFormed(Initial)
  {
  }

  /** UNLOCK sets `isUnlocked` and nothing else. */
  lemma UnlockSpec(s: VaultState)
    ensures Reduce(s, Unlock) == VaultState(true, s.hasEntered, s.currentSection, s.unlockedSections)
  {
  }

  /** ENTER sets `hasEntered` and records section 0 once; the current section is untouched. */
  lemma EnterSpec(s: VaultState)
    ensures Reduce(s, Enter).hasEntered
    ensures 0 in Reduce(s, Enter).unlockedSections
    ensures Reduce(s, Enter).isUnlocked == s.isUnlocked
    ensures Reduce(s, Enter).currentSection == s.currentSection
    ensures 0 in s.unlockedSections ==> Reduce(s, Enter).unlockedSections == s.unlockedSections
    ensures 0 !in s.unlockedSections ==> Reduce(s, Enter).unlockedSections == s.unlockedSections + [0]
  {
  }

  /** NAVIGATE(n) moves to max(0, n), with no upper clamp, and records that section. */
  lemma NavigateSpec(s: VaultState, n: int)
    ensures Reduce(s, Navigate(n)).currentSection == (if n < 0 then 0 else n)
    ensures Reduce(s, Navigate(n)).currentSection >= 0
    ensures n >= 0 ==> Reduce(s, Navigate(n)).currentSection == n
    ensures Reduce(s, Navigate(n)).currentSection in Reduce(s, Navigate(n)).unlockedSections
    ensures (if n < 0 then 0 else n) in s.unlockedSections ==>
      Reduce(s, Navigate(n)).unlockedSections == s.unlockedSections
    ensures (if n < 0 then 0 else n) !in s.unlockedSections ==>
      Reduce(s, Navigate(n)).unlockedSections == s.unlockedSections + [if n < 0 then 0 else n]
    ensures Reduce(s, Navigate(n)).isUnlocked == s.isUnlocked
    ensures Reduce(s, Navigate(n)).hasEntered == s.hasEntered
  {
  }

  /** UNLOCK_SECTION(n) returns the very same state when n is known, else appends n. */
  lemma UnlockSectionSpec(s: VaultState, n: int)
    ensures n in s.unlockedSections ==> Reduce(s, UnlockSection(n)) == s
    ensures n !in s.unlockedSections ==>
      Reduce(s, UnlockSection(n)) == s.(unlockedSections := s.unlockedSections + [n])
  {
  }

  /** An unrecognised action kind is the identity transition. */
  lemma OtherIsIdentity(s: VaultState, kind: string)
    ensures Reduce(s, Other(kind)) == s
  {
  }

  /** Every action is idempotent: dispatching it twice equals dispatching it once. */
  lemma Idempotent(s: VaultState, a: Action)
    ensures Reduce(Reduce(s, a), a) == Reduce(s, a)
  {
  }

  /** From the initial state, no sequence of actions yields a negative section or a duplicate. */
  lemma Reachable(actions: seq<Action>)
    ensures Run(Initial, actions).currentSection >= 0
    ensures NoDuplicates(Run(Initial, actions).unlockedSections)
  {
    InitialState();
  }

  /** Once a section has been visited it stays visited, whatever is dispatched afterwards. */
  lemma VisitedStaysVisited(s: VaultState, actions: seq<Action>, n: int)
    requires n in s.unlockedSections
    ensures n in Run(s, actions).unlockedSections
  {
    var k :| 0 <= k < |s.unlockedSections| && s.unlockedSections[k] == n;
    assert Run(s, actions).unlockedSections[k] == n;
  }

  /** The usual tour: unlock, enter, then jump to sections 2 and 5. */
  lemma TourExample()
    ensures Run(Initial, [Unlock, Enter, Navigate(2), Navigate(5)])
         == VaultState(true, true, 5, [0, 2, 5])
  {
    var s1 := Reduce(Initial, Unlock);
    var s2 := Reduce(s1, Enter);
    var s3 := Reduce(s2, Navigate(2));
    var s4 := Reduce(s3, Navigate(5));
    assert s4 == VaultState(true, true, 5, [0, 2, 5]);
    assert [Unlock, Enter, Navigate(2), Navigate(5)][1..] == [Enter, Navigate(2), Navigate(5)];
    assert [Enter, Navigate(2), Navigate(5)][1..] == [Navigate(2), Navigate(5)];
    assert [Navigate(2), Navigate(5)][1..] == [Navigate(5)];
  }
}
