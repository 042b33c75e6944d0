# Prisi Ops landing page: navigation and component state, verified in Dafny

This project models the stateful logic of the Prisi Ops landing page, a React
single-page site that walks the visitor through a six-section tour of a "vault".
It covers:

- **the vault navigation reducer** (`Vault`), a pure transition function over the
  session state: the `isUnlocked` and `hasEntered` flags, the `currentSection`
  index and the `unlockedSections` visit list. It takes `UNLOCK`, `ENTER`,
  `NAVIGATE(n)` and `UNLOCK_SECTION(n)`, plus any unrecognised action, which is a no-op;
- **the section sequencer of the vault interior** (`Sequencer`): clamping the current section
  into the six sections, prev/next gating, hiding the floating call-to-action on
  "connect", the `NN / 06` counter and the `aria-current` dot. It is composed with the
  reducer to give end-to-end navigation properties;
- **the blueprint diagram geometry** (`Blueprint`): the SVG viewBox around the node
  rectangles, node lookup by id, the connection-curve endpoints, the node-type caption
  and the legend;
- **the single-selection toggle** (`Selection`) shared by the case-study cards
  (`CaseStudies`) and the workflow panels and diagram nodes (`Workflows`). Both of those
  components are classes whose handlers overwrite their state cells. `Workflows` also
  holds the site's three workflows as data, with lemmas that they are well formed;
- **the contact form** (`Contact`): a class for `idle → submitting → success | error`,
  single-field edits and the submit button, plus the pure filter that builds the
  list of contact links;
- **the security level indicator** (`SecurityLevels`): the level range, the
  active/unlocked status and label of each marker, the aria range and the footer;
- the string conversions these need (`Text`): `String(n)`, `padStart` and a
  one-character `replace`; and `Wrappers.Option` for `undefined`/`null`.

JavaScript numbers are modelled as `int`: every value involved is an integer index
or coordinate. `String(n)` is modelled as the plain decimal numeral, which is what
JavaScript prints below 10^21; from 10^21 up it switches to exponent notation, which
the model does not follow. The only fractional value is the curve's middle height, which is a `real`.
The contact form's network send is not modelled; its outcome is a boolean parameter,
`delivered`, so either outcome may occur.

## Model

| member | source | states |
|---|---|---|
| Vault.AddIfAbsent | src/context/VaultContext.tsx:25-27 | the value is in the result; a list that already holds it is returned as is, otherwise it is appended once |
| Vault.Reduce | src/context/VaultContext.tsx:14-55 | for any state and action: no flag is cleared, the old visit list stays a prefix of the new one, a duplicate-free list stays duplicate-free and a non-negative section stays non-negative |
| Vault.Run | src/context/VaultContext.tsx:72-76 | over any sequence of dispatched actions the same four facts hold as for one step |
| Vault.InitialState | src/context/VaultContext.tsx:6-11 | the initial state is locked, not entered, at section 0, with no visited sections, and is well formed |
| Vault.UnlockSpec | src/context/VaultContext.tsx:16-20 | UNLOCK sets `isUnlocked` and leaves the other three fields unchanged |
| Vault.EnterSpec | src/context/VaultContext.tsx:21-28 | ENTER sets `hasEntered` and puts 0 in the visit list (unchanged list if 0 was there, else appended); the other flag and the current section are unchanged |
| Vault.NavigateSpec | src/context/VaultContext.tsx:29-40 | NAVIGATE(n) sets the current section to max(0, n), with no upper clamp, and keeps both flags; the visit list is unchanged when max(0, n) was in it, else max(0, n) is appended |
| Vault.UnlockSectionSpec | src/context/VaultContext.tsx:42-51 | UNLOCK_SECTION(n) returns the very same state when n was visited, else appends n and changes nothing else |
| Vault.OtherIsIdentity | src/context/VaultContext.tsx:52-53 | an unrecognised action leaves the state unchanged |
| Vault.Idempotent | src/context/VaultContext.tsx:14-55 | dispatching any action twice gives the same state as dispatching it once |
| Vault.Reachable | src/context/VaultContext.tsx:6-76 | from the initial state no sequence of actions yields a negative section or a duplicate visited section |
| Vault.VisitedStaysVisited | src/context/VaultContext.tsx:14-55 | from any state, a visited section stays visited whatever is dispatched afterwards |
| Vault.TourExample | src/context/VaultContext.tsx:6-55 | UNLOCK, ENTER, NAVIGATE(2), NAVIGATE(5) from the initial state ends unlocked, entered, at 5, having visited [0, 2, 5] |
| Sequencer.Clamp | src/components/VaultInterior/VaultInterior.tsx:43-48 | the clamped section lies in [0, 5], equals the current section when that is in range, is 0 below it and 5 above it |
| Sequencer.ClampIdempotent | src/components/VaultInterior/VaultInterior.tsx:45-48 | clamping an already clamped section changes nothing |
| Sequencer.CanGoPrevious | src/components/VaultInterior/VaultInterior.tsx:64 | the prev button is enabled exactly when the current section is above 0 |
| Sequencer.CanGoNext | src/components/VaultInterior/VaultInterior.tsx:65 | the next button is enabled exactly when the current section is below 5 |
| Sequencer.HandlePrevious | src/components/VaultInterior/VaultInterior.tsx:52-56 | Previous passes clamped - 1 to `onNavigate` exactly when the prev button is enabled, and nothing otherwise; the target lies in [0, 5] |
| Sequencer.HandleNext | src/components/VaultInterior/VaultInterior.tsx:58-62 | Next passes clamped + 1 exactly when the next button is enabled, and nothing otherwise; the target lies in [0, 5] |
| Sequencer.ShouldShowCta | src/components/VaultInterior/VaultInterior.tsx:67-70 | the call-to-action is hidden exactly on the section whose id is "connect", which is exactly when the next button is disabled |
| Sequencer.CounterLabel | src/components/VaultInterior/VaultInterior.tsx:176 | the counter is always "0d / 06", seven characters, where d is the digit of the one-based clamped section |
| Sequencer.AriaCurrentDots | src/components/VaultInterior/VaultInterior.tsx:84-96 | one flag per section; the clamped section's dot carries `aria-current` and no two dots do |
| Sequencer.Target | src/components/VaultInterior/VaultInterior.tsx:52-87 | every control targets a section in [0, 5]; only a disabled prev or next button targets nothing |
| Sequencer.Step | src/components/VaultInterior/VaultInterior.tsx:52-87 | using a control and reducing keeps the current section and every visited section in [0, 5] when they were, leaves both flags as they were and forgets no visited section |
| Sequencer.NextThenPrevious | src/components/VaultInterior/VaultInterior.tsx:52-62 | below the last section, Next then Previous through the reducer returns to the starting section |
| Sequencer.PreviousThenNext | src/components/VaultInterior/VaultInterior.tsx:52-62 | above the first section, Previous then Next through the reducer returns to the starting section |
| Sequencer.EndsAreInert | src/components/VaultInterior/VaultInterior.tsx:52-62 | at the first section Previous leaves the state unchanged, and at the last section Next does |
| Text.PadStart | src/components/VaultInterior/VaultInterior.tsx:176 | the result is max(len, width) long, ends with the input and starts with fill characters |
| Text.NatToDecimal | src/components/SecurityLevelIndicator/SecurityLevelIndicator.tsx:45 | `String(n)` is a non-empty run of digits with no leading zero, one digit exactly for n < 10 |
| Text.DecimalRoundTrip | src/components/SecurityLevelIndicator/SecurityLevelIndicator.tsx:134 | reading the numeral `String(n)` back gives n |
| Text.IntToDecimal | src/components/SecurityLevelIndicator/SecurityLevelIndicator.tsx:134 | `String(i)` starts with "-" exactly for negative i, contains no "/", is `String(n)` for non-negative i, and its digits read back as the magnitude of i |
| Text.ReplaceFirst | src/components/BlueprintDiagram/BlueprintDiagram.tsx:136 | `replace` keeps the length, and leaves the string unchanged when the pattern character is absent |
| Text.ReplaceFirstAt | src/components/BlueprintDiagram/BlueprintDiagram.tsx:136 | when the pattern character first occurs at k, `replace` changes position k to the replacement and nothing else |
| Blueprint.MinOf | src/components/BlueprintDiagram/BlueprintDiagram.tsx:20-21 | `Math.min` of a non-empty list is an element of it and no element is smaller |
| Blueprint.MaxOf | src/components/BlueprintDiagram/BlueprintDiagram.tsx:22-23 | `Math.max` of a non-empty list is an element of it and no element is larger |
| Blueprint.ComputeViewBox | src/components/BlueprintDiagram/BlueprintDiagram.tsx:15-26 | no finite viewBox exactly when there are no nodes; otherwise width ≥ 300, height ≥ 180, and every node rectangle lies inside with a 60-unit margin |
| Blueprint.ViewBoxIsTight | src/components/BlueprintDiagram/BlueprintDiagram.tsx:20-26 | each of the four margins is touched by some node, so the viewBox is the tightest one with that padding |
| Blueprint.FindNode | src/components/BlueprintDiagram/BlueprintDiagram.tsx:29-30 | nothing exactly when no node has the id; otherwise a node with that id such that no earlier node has it |
| Blueprint.FindNodeUnique | src/components/BlueprintDiagram/BlueprintDiagram.tsx:29-30 | when node ids are distinct, looking up a node's id finds that very node |
| Blueprint.ConnectionPath | src/components/BlueprintDiagram/BlueprintDiagram.tsx:33-48 | no path exactly when the `from` id or the `to` id names no node |
| Blueprint.PathEndpoints | src/components/BlueprintDiagram/BlueprintDiagram.tsx:33-47 | a drawn curve starts at (x+90, y+60) of the node `find` returns for `from` and ends at (x+90, y) of the node it returns for `to`; the control height is their mean |
| Blueprint.PathInsideViewBox | src/components/BlueprintDiagram/BlueprintDiagram.tsx:20-47 | both endpoints of every drawn curve lie inside the diagram's viewBox |
| Blueprint.TypeCaption | src/components/BlueprintDiagram/BlueprintDiagram.tsx:136 | the caption of "ai-agent" is "ai agent"; the other three types are printed as written |
| Blueprint.ActiveFlags | src/components/BlueprintDiagram/BlueprintDiagram.tsx:85 | a node is highlighted exactly when its id is the active id; with distinct ids at most one is |
| Blueprint.AtMostOneActiveNode | src/components/BlueprintDiagram/BlueprintDiagram.tsx:85 | with distinct node ids at most one node is highlighted, and it is the one whose id is active |
| Blueprint.Legend | src/components/BlueprintDiagram/BlueprintDiagram.tsx:146-163 | the legend box is rendered exactly when the active id is present and non-empty; it holds a label exactly when some node has that id, and then it is the label of the first such node |
| Selection.Toggle | src/components/CaseStudiesSection/CaseStudiesSection.tsx:20-22 | after a click on `id` something is selected exactly when `id` was not the selection, and that something is `id` |
| Selection.ToggleTwice | src/components/CaseStudiesSection/CaseStudiesSection.tsx:18-22 | two clicks on the same id keep that id if it was selected, and otherwise leave nothing selected |
| Selection.SelectedCount | src/components/CaseStudiesSection/CaseStudiesSection.tsx:66 | with distinct ids exactly one item is selected when the selection names an item, else none |
| Selection.AtMostOneSelected | src/components/WorkflowsSection/WorkflowsSection.tsx:103-110 | with distinct ids at most one item is selected |
| CaseStudies.CaseStudiesSection.constructor | src/components/CaseStudiesSection/CaseStudiesSection.tsx:18 | initially no card is expanded |
| CaseStudies.CaseStudiesSection.HandleToggle | src/components/CaseStudiesSection/CaseStudiesSection.tsx:20-22 | toggling the expanded card collapses it; toggling any other card expands it in place of the previous one |
| CaseStudies.CaseStudiesSection.ExpandedCards | src/components/CaseStudiesSection/CaseStudiesSection.tsx:57-70 | a card is expanded exactly when its id is `expandedId`; with distinct ids at most one is |
| CaseStudies.ToggleTwiceFromInitial | src/components/CaseStudiesSection/CaseStudiesSection.tsx:18-22 | starting with nothing expanded, toggling one card twice leaves nothing expanded |
| Workflows.WorkflowsSection.constructor | src/components/WorkflowsSection/WorkflowsSection.tsx:16-19 | the first workflow starts unfolded (none when the list is empty) and no node is active |
| Workflows.WorkflowsSection.HandleNodeClick | src/components/WorkflowsSection/WorkflowsSection.tsx:21-23 | clicking the active node deactivates it and clicking another activates that node; the unfolded workflow is unchanged |
| Workflows.WorkflowsSection.HandleWorkflowToggle | src/components/WorkflowsSection/WorkflowsSection.tsx:25-28 | toggling the unfolded workflow folds it and toggling another unfolds that one; the active node is always cleared |
| Workflows.WorkflowsSection.ShownDiagrams | src/components/WorkflowsSection/WorkflowsSection.tsx:103-110 | a workflow shows its diagram exactly when its id is the unfolded id; with distinct ids at most one does |
| Workflows.SwitchClearsNode | src/components/WorkflowsSection/WorkflowsSection.tsx:16-28 | after clicking a node, switching to another workflow leaves that workflow unfolded and no node active |
| Workflows.ResolvedConnectionsAreDrawn | src/components/BlueprintDiagram/BlueprintDiagram.tsx:33-37 | when every connection names nodes at both ends, every connection is drawn as a curve |
| Workflows.SiteWorkflowIdsDistinct | src/data/workflows.ts:9-186 | the three workflow ids are distinct, so at most one diagram is ever unfolded |
| Workflows.SiteWorkflowsWellFormed | src/data/workflows.ts:9-186 | each site workflow has at least one node, distinct node ids, and only connections between its own nodes |
| Workflows.SiteConnectionsAreDrawn | src/data/workflows.ts:9-186 | every connection of every site workflow is drawn as a curve |
| Contact.WithField | src/components/ContactSection/ContactSection.tsx:58-63 | the named field takes the new value and the other three fields are unchanged |
| Contact.WithFieldUnique | src/components/ContactSection/ContactSection.tsx:58-63 | any form whose named field is the value and whose other fields are the old ones is the result of the edit |
| Contact.WithFieldLaws | src/components/ContactSection/ContactSection.tsx:58-63 | a second edit of a field overrides the first; writing a field's own value back changes nothing |
| Contact.ButtonFor | src/components/ContactSection/ContactSection.tsx:229-235 | the button is disabled exactly while submitting, and then it reads "Sending..."; otherwise it reads "Send Message" |
| Contact.BlankFormIsNotSubmittable | src/components/ContactSection/ContactSection.tsx:30-35 | the blank form fails the `required` check of the name, email and message controls, so it cannot be sent |
| Contact.ContactForm.constructor | src/components/ContactSection/ContactSection.tsx:28-35 | the form starts blank with subject "General Inquiry", status idle and nothing in flight |
| Contact.ContactForm.BeginSubmit | src/components/ContactSection/ContactSection.tsx:37-43 | callable only on a form that passes the `required` check; starting a submit marks it in flight and resets the status to idle; the current data is what gets sent |
| Contact.ContactForm.FinishSubmit | src/components/ContactSection/ContactSection.tsx:43-55 | after a delivered send the status is success and the form is blank; after a failed send the status is error and the data is kept; either way nothing is in flight |
| Contact.ContactForm.Submit | src/components/ContactSection/ContactSection.tsx:37-56 | the whole `handleSubmit` on a form that passes the `required` check: sends the current data and ends as `FinishSubmit` says |
| Contact.ContactForm.Change | src/components/ContactSection/ContactSection.tsx:58-63 | an edit changes only the named field, and leaves the submit state and the status as they were |
| Contact.ContactForm.Button | src/components/ContactSection/ContactSection.tsx:229-235 | the button is disabled exactly while submitting |
| Contact.RetryAfterFailure | src/components/ContactSection/ContactSection.tsx:37-63 | after a failed send of a filled-in form the typed message is kept, the status is error, the button is enabled again and the form can be sent again as it is |
| Contact.ContactLinks | src/components/ContactSection/ContactSection.tsx:65-107 | the email link always comes first; LinkedIn and Calendly follow, in that order, exactly when present and non-empty; no other kind appears |
| Contact.SiteContactLinks | src/data/profile.ts:36-40 | the site's contact details yield all three links |
| SecurityLevels.Levels | src/components/SecurityLevelIndicator/SecurityLevelIndicator.tsx:18 | the levels are exactly 0 .. totalLevels-1 in order (none for a negative total) |
| SecurityLevels.LabelFor | src/components/SecurityLevelIndicator/SecurityLevelIndicator.tsx:45 | the label is the custom label when the list has an entry for the level, else "L" followed by level + 1 |
| SecurityLevels.MarkerFor | src/components/SecurityLevelIndicator/SecurityLevelIndicator.tsx:43-45 | a marker is unlocked unless its level is above the current one and active when unlocked and not below it, so active implies unlocked; it carries its level and label |
| SecurityLevels.Markers | src/components/SecurityLevelIndicator/SecurityLevelIndicator.tsx:42-45 | there is one marker per level, and the marker at index i is the marker for level i |
| SecurityLevels.MarkerStatus | src/components/SecurityLevelIndicator/SecurityLevelIndicator.tsx:42-45 | marker i is active exactly when i is the current level and unlocked exactly when i ≤ the current level; active implies unlocked |
| SecurityLevels.AtMostOneActive | src/components/SecurityLevelIndicator/SecurityLevelIndicator.tsx:43 | no two markers are active |
| SecurityLevels.UnlockedCount | src/components/SecurityLevelIndicator/SecurityLevelIndicator.tsx:44 | the number of unlocked markers is min(total, current + 1), or 0 for a negative current level |
| SecurityLevels.LabelFallback | src/components/SecurityLevelIndicator/SecurityLevelIndicator.tsx:45 | an empty custom label is kept; a missing entry falls back to the default, which is "L" followed by a numeral that reads as level + 1 |
| SecurityLevels.AriaRange | src/components/SecurityLevelIndicator/SecurityLevelIndicator.tsx:25-27 | the aria range starts at 0 and, when there are levels, ends at the last rendered level |
| SecurityLevels.Footer | src/components/SecurityLevelIndicator/SecurityLevelIndicator.tsx:134 | the footer's only "/" sits right after `String(level + 1)`, and `String(total)` follows it |
| SecurityLevels.FooterReadsBack | src/components/SecurityLevelIndicator/SecurityLevelIndicator.tsx:134 | the footer is the numeral of current level + 1, one "/", and the numeral of the total; neither numeral contains "/", and they read back as level + 1 and total |

## Left out

- Rendering and animation: JSX, motion variants, CSS classes and SVG art of every component. The theme colours of active, unlocked and locked markers are part of this.
- The "returning visitor" persistence and hydration from local storage. The provider shown here starts from `initialState` or a caller-supplied state and performs no storage reads or writes, so `hasVisitedBefore` and the persisted keys are not part of this model. `src/lib/email.ts` and the cloud API configuration are also not part of it.
- React plumbing: `useReducer`, context and `useVault` throwing outside a provider, `useMemo`/`useCallback`, and routing. A sequence of dispatches is modelled as `Vault.Run`.
- The asynchronous send: `delivered` stands for its outcome. The model does not interleave edits between `BeginSubmit` and `FinishSubmit` in `Submit`, though the two methods can be called separately to express that.
- Contact.ContactForm.Submit: the browser's `type="email"` syntax check on the email control is not modelled; only the `required` checks are, as the precondition `PassesRequired`.
- Text.NatToDecimal: exponent notation for numbers from 10^21 up is not modelled; the numbers printed here are section and level counts.
- Contact.ContactForm.Change: the field is one of the form's four control names; a `change` event from a control with any other `name` would add a new key to the form data, which is not modelled.
- Blueprint.ConnectionPath: the SVG path string (`M … C …`) is not rendered as text; the curve is given by its numbers, with the control height as an exact `real`.
- Text.PadStart: a pad string longer than one character is not modelled; the components only pad with `'0'`.
- Timers and window listeners (the door's entry sequence, the floating call-to-action's delay and viewport check, the metric counter) and floating-point or locale formatting are outside the modelled components.
- The uppercase display of the node-type caption is a CSS `text-transform`, not a string operation, and is not modelled.
