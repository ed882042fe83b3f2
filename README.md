# Co-Fo workspace orchestration, modelled in Dafny

This project models the state machine that runs the Co-Fo coaching demo. That is the `App` component and the per-card hover controller in `TaskCard`.

The workspace holds three task slots. Each time a title is edited, a trigger classifier decides whether it is an "output/KPI" title. It flags the title when the scenario is 2 or later and the title contains `收入`, `KPI` or `业绩`. A flagged card shows a halo, and a hook tooltip if it was flagged when the pointer entered it.

A consultation opens the coaching side panel:

- on a flagged task, with one nudge message that quotes the task's title;
- otherwise, with one generic message.

From scenario 4 on, a budget click shows a tooltip and queues a hide callback. The scenario switcher closes the panel, hides the budget tooltip and the toast, then installs the scenario's preset task list. The cards stay mounted across a switch, so their hover state is kept. An effect opens the welcome panel whenever the scenario becomes 1. Scenario 5 shows a notification toast.

Files:

- `strings.dfy` (module `Strings`): substring search as JavaScript's `String.prototype.includes` does it, proved equal to an index-based reference definition.
- `app.dfy` (module `App`) holds:
  - the `Task` value and the classifier;
  - the title edit as a map over the list, and the first-match search;
  - the scenario snapshots and the canned panel contents;
  - class `Workspace`, whose fields are the component state and whose methods are the event handlers;
  - a few event sequences whose outcomes are proved.
- `task_card.dfy` (module `TaskCard`) holds:
  - the card's hover state as a value, with its transitions and visibility predicates;
  - the event-to-callback dispatch;
  - class `Card`, whose methods are the mouse handlers.

Modelling choices:

- The timer is a count of queued hides, `pendingHides`. `BudgetClick` adds one, and the event `FireHide` removes one and hides the tooltip. No hide is ever cancelled, so a stale hide can fire after a re-click or after a scenario switch. The 5000 ms delay is not modelled.
- The scenario effect runs right after a handler that actually changed `currentScenario`, and once at mount (in the constructor). Reselecting scenario 1 while already in it does not run the effect again.
- The card's props (`showNudge`, `showBudgetTooltip`) are parameters of its methods and predicates, because the parent can change them between two events.
- The canned message texts are constants of the model. What matters is their count, their role, their context tag, and that the nudge message quotes the title.

The demo's intended behaviour, as its product design describes it, differs from the code in several places. The model follows the code:

- Intended: a re-click restarts the tooltip's window. The code queues one more independent hide instead (`StaleHideAfterReclick`).
- Intended: a scenario switch cancels the pending hide. The code only sets the tooltip to hidden (`StaleHideAfterSwitch`).
- Intended: scenarios 4 and 5 get their own task snapshots. The code keeps the previous list, so flags computed in an earlier scenario can be stale (`StaleFlagAfterSwitchToFour`).
- Intended: a consultation on an unknown id is a no-op. The code opens the panel in the generic context (`ConsultPanel`).
- Intended: the budget tooltip appears on the task that was clicked. The handler ignores the id, and only slot '1' is ever handed the tooltip (`BudgetClickOnSlotTwo`).
- Intended: the halo and the hook tooltip both show while the card is hovered and flagged. In the code the halo shows on every flagged card, hovered or not (`TaskCard.HookTooltipImpliesHalo`). The hook tooltip is switched on only by an enter, so a card that becomes flagged while the pointer is already on it shows no tooltip until the pointer leaves and enters again (`TaskCard.FlaggedWhileHovered`). The code does keep the other half of the rule: the tooltip is only ever on while the card is hovered (`TaskCard.TooltipNeedsHoverPreserved`).

## Model

| member | source | states |
|---|---|---|
| Strings.IncludesIffOccurs | src/App.tsx:61 | the substring search used by the classifier holds exactly when the word occurs at some index (both directions) |
| Strings.IncludesMiddle | src/App.tsx:79 | a message built as opening + title + closing includes the title |
| App.ShouldShowNudgeIffTriggerOccurs | src/App.tsx:60-61 | an edit is flagged iff the scenario is at least 2 and one of 收入, KPI, 业绩 occurs in the title; in scenario 1 nothing is flagged |
| App.EditTitleAt | src/App.tsx:55-68 | an edit keeps length, order and ids; the matching slot gets the new title and a flag recomputed by the classifier; other slots are unchanged |
| App.EditTitleUnknownId | src/App.tsx:56-67 | an edit naming an id not in the list leaves the list unchanged |
| App.EditTitleKeepsShape | src/App.tsx:56-67 | an edit keeps the three slots with ids '1', '2', '3' in order |
| App.Find | src/App.tsx:72 | the search returns nothing iff no task has the id; otherwise it returns the first task with that id |
| App.FindOwnSlot | src/App.tsx:29-33 | in the three-slot list each slot is the one found by its own id |
| App.ScenarioTasksKeepShape | src/App.tsx:108-122 | every snapshot (and scenarios 4 and 5 keeping the old list) keeps the three-slot shape |
| App.ScenarioFlagsAgreeWithClassifier | src/App.tsx:108-119 | the preset flags of scenarios 1, 2 and 3 are what the classifier gives for their titles (slot 1 in scenarios 2 and 3 is flagged) |
| App.StaleFlagAfterSwitchToFour | src/App.tsx:108-122 | a trigger title typed in scenario 1 stays unflagged after switching to 4, although the classifier would now flag it |
| App.NudgeMessage | src/App.tsx:76-81 | the nudge message is a coach message that includes the task title |
| App.ConsultPanel | src/App.tsx:70-92 | one coach message; nudge context iff the found task is flagged, and then the message quotes its title; otherwise (unknown id included) generic context and the generic message; never welcome; content consistent with its tag |
| App.ConsultOnSlot | src/App.tsx:72-81 | consulting a slot by its id gives the nudge context iff that slot is flagged, and the message quotes that slot's title |
| Strings.Includes | src/App.tsx:61 | the search finds the empty word in any string, and finds nothing longer than the string searched |
| App.ShouldShowNudge | src/App.tsx:60-61 | the classifier never flags in scenario 1 and never flags an empty title |
| App.EditedTask | src/App.tsx:57-66 | the per-task step keeps the id; the task is either untouched or carries the new title and a flag recomputed by the classifier |
| App.EditTitle | src/App.tsx:56-67 | the mapped edit keeps the list's length |
| App.EditTitleKeepsFlags | src/App.tsx:56-67 | an edit keeps every flag in agreement with the classifier under the current scenario, and keeps every flag justified by a trigger word |
| App.ScenarioTasks | src/App.tsx:108-122 | scenarios 4 and 5 keep the previous list; scenarios 1 to 3 give the three-slot shape whatever came before, with slot 1 empty in scenario 1 and titled 本月收入 10 万 in scenarios 2 and 3, only that slot flagged, slots 2 and 3 empty |
| App.ScenarioTasksKeepFlags | src/App.tsx:108-119 | after a switch to 1, 2 or 3 every flag agrees with the classifier under the new scenario; every switch keeps flags justified by a trigger word |
| App.Workspace.Valid | src/App.tsx:20-123 | the invariant every handler keeps: three slots with ids '1', '2', '3'; flags agree with the classifier up to scenario 3 and are justified by a trigger word in every scenario; the transcript matches its tag; a shown budget tooltip has a hide queued |
| App.CardBudgetTooltip | src/components/TaskCard.tsx:78 | a card shows the budget tooltip only if it is card '1', and in a valid state only with a hide queued |
| App.BudgetClickOnSlotTwo | src/App.tsx:94-99 | a budget click on card '2' in scenario 4 puts the tooltip on card '1' and not on card '2' |
| App.Workspace.constructor | src/App.tsx:20-53 | the initial state after the mount effect: scenario 1, empty slots, no tooltip, no toast, no queued hide, the panel open with the two welcome messages |
| App.Workspace.ScenarioEffect | src/App.tsx:38-53 | in scenario 1 it opens the panel with the welcome tag and two welcome messages; otherwise it changes nothing |
| App.Workspace.TitleChange | src/App.tsx:55-68 | the list becomes the edit of the old list under the current scenario; nothing else changes; the shape invariant is kept |
| App.Workspace.Consult | src/App.tsx:70-92 | the panel is open and holds what the consultation selects; nothing else changes |
| App.Workspace.BudgetClick | src/App.tsx:94-100 | below scenario 4 nothing changes; from 4 on the tooltip is shown and exactly one hide is added, earlier ones stay queued |
| App.Workspace.FireHide | src/App.tsx:98 | a queued hide fires: the tooltip is hidden and one fewer hide is queued; nothing else changes |
| App.Workspace.ScenarioChange | src/App.tsx:102-123 | sets the scenario; hides tooltip and toast (toast shown only in 5); installs the scenario's list (4 and 5 keep the old one); leaves transcript, tag and queued hides alone; panel open with welcome iff the scenario became 1 from another one |
| App.Workspace.OpenSidebar | src/App.tsx:270 | the icon opens the panel without altering transcript or tag |
| App.Workspace.CloseSidebar | src/App.tsx:280 | closing hides the panel without altering transcript or tag |
| App.Workspace.CloseNotification | src/App.tsx:288 | closing the toast hides it and changes nothing else |
| App.Workspace.BudgetTooltipFor | src/App.tsx:205 | only card '1' is ever handed the budget tooltip, and it is whenever the tooltip is on; in a valid state a card shown the tooltip has a hide queued |
| App.StaleHideAfterReclick | src/App.tsx:94-100 | after two clicks in scenario 4 and one fired hide, the tooltip is hidden while one hide is still queued |
| App.StaleHideAfterSwitch | src/App.tsx:96-106 | a hide queued before switching scenarios survives the switch and hides the tooltip of a later click |
| App.ReselectScenarioOne | src/App.tsx:38-53 | the welcome panel is open after mount, and selecting scenario 1 again leaves it closed |
| App.CloseThenReopen | src/App.tsx:270-283 | closing then reopening the panel by the icon shows the same tag and transcript |
| App.WalkThrough | src/App.tsx:55-92 | an output title typed in scenario 1 is unflagged; after switching to 2 slot 1 is flagged, hovering it shows the hook tooltip, and consulting it opens the nudge context |
| TaskCard.Enter | src/components/TaskCard.tsx:29-34 | enter sets hovered; the hook tooltip flag is set if the card is flagged now, otherwise unchanged |
| TaskCard.Leave | src/components/TaskCard.tsx:36-39 | leave clears both flags whatever the prior state |
| TaskCard.HookTooltipVisible | src/components/TaskCard.tsx:50 | the hook tooltip is on screen iff its flag is set and the card is flagged now |
| TaskCard.HaloVisible | src/components/TaskCard.tsx:47 | the halo is on screen iff the card is flagged; it takes no hover state |
| TaskCard.BudgetTooltipVisible | src/components/TaskCard.tsx:78 | the card's budget tooltip is exactly its prop; the card keeps no state for it |
| TaskCard.TooltipNeedsHoverPreserved | src/components/TaskCard.tsx:26-39 | the initial state, enter and leave all keep "tooltip flag set only while hovered", so a shown hook tooltip always sits on a hovered card |
| TaskCard.FlaggedWhileHovered | src/components/TaskCard.tsx:29-34 | a card flagged after the pointer entered shows no hook tooltip; after leaving and entering again it does |
| TaskCard.Card.Valid | src/components/TaskCard.tsx:26-39 | the card's fields keep "tooltip flag set only while hovered"; the constructor establishes it and both handlers preserve it |
| TaskCard.EnterIdempotent | src/components/TaskCard.tsx:29-34 | two enters with the same flag give the state of one |
| TaskCard.LeaveResets | src/components/TaskCard.tsx:36-39 | after leave the card is in its initial state and shows no hook tooltip |
| TaskCard.HookTooltipOnlyWhenFlagged | src/components/TaskCard.tsx:50 | the hook tooltip is never visible on an unflagged card, and is visible after an enter on a flagged one |
| TaskCard.HookTooltipImpliesHalo | src/components/TaskCard.tsx:47-50 | a flagged card shows its halo before any hover while its hook tooltip is off, and the hook tooltip never shows without the halo |
| TaskCard.StaleHookFlag | src/components/TaskCard.tsx:29-50 | the tooltip flag set by a flagged enter survives the card being unflagged and reflagged without a new enter |
| TaskCard.Dispatch | src/components/TaskCard.tsx:53-87 | every event calls the parent with the card's own id: hook action and consult button call consult, the budget button calls budget click, the input calls title change with the typed value (the hook action button is on screen only while the hook tooltip is) |
| TaskCard.Card.constructor | src/components/TaskCard.tsx:26-27 | a card starts unhovered with the tooltip flag off |
| TaskCard.Card.MouseEnter | src/components/TaskCard.tsx:29-34 | the card's new state is `Enter` of its old state and the current flag |
| TaskCard.Card.MouseLeave | src/components/TaskCard.tsx:36-39 | the card's new state is `Leave` of its old state |
| TaskCard.Card.HookTooltipShown | src/components/TaskCard.tsx:50 | the hook tooltip is shown only on a flagged card, exactly when its flag is set |

The card's budget tooltip is its prop (`TaskCard.BudgetTooltipVisible`), and the prop is `App.Workspace.BudgetTooltipFor` of the card's id.

## Left out

- Rendering, layout and styling, the view switcher (`currentView`) and the milestone and kanban placeholder views: they hold no behaviour of the state machine.
- The backlog pool: `backlogTasks` is never changed after its initial empty value.
- The side panel component is presentational. Its one rule, that the "begin" button shows iff the tag is welcome, is not modelled as a member. That button and the toast's consult button have no handler.
- The tooltip and halo animation wrappers and the budget dashboard placeholder: visual only.
- Real time: the 5000 ms delay, the browser event loop, and React's batching and render scheduling. A queued hide fires only through the explicit `FireHide` event, and the scenario effect runs right after the handler that changed the scenario.
- `Strings.Includes` compares Unicode scalar values, while JavaScript compares UTF-16 code units. The answers agree on the three trigger words, which are all in the Basic Multilingual Plane. A title holding a lone surrogate cannot be represented in the model.
- The icon library and the button component are foreign UI code and are not part of this model.
