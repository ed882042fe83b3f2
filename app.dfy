/** The workspace of the coaching demo: three task slots whose titles are
    classified as they are typed, a coaching side panel with a canned
    transcript, a budget tooltip hidden by a timer, a notification toast, and
    a switcher between five demo scenarios. */
module App {
  import opened Strings
  import TaskCard

  datatype Option<T> = None | Some(value: T)

  /** The five demo scenarios; the switcher can only name these. */
  type Scenario = n: int | 1 <= n <= 5 witness 1

  /** One task slot of the workspace. */
  datatype Task = Task(id: string, title: string, showNudge: bool)

  // ---------------------------------------------------------------------------
  // Trigger classifier

  const IncomeTrigger: string := "收入"
  const KpiTrigger: string := "KPI"
  const PerformanceTrigger: string := "业绩"

  /** The trigger words, in the order the classifier tests them. */
  const Triggers: seq<string> := [IncomeTrigger, KpiTrigger, PerformanceTrigger]

  /** The title contains one of the trigger words. */
  predicate HasTrigger(title: string) {
    Includes(title, IncomeTrigger) || Includes(title, KpiTrigger) || Includes(title, PerformanceTrigger)
  }

  /** Whether an edited title is flagged: only from scenario 2 on, and only
      when the title contains one of the trigger words. Scenario 1 flags
      nothing, and an empty title is never flagged. */
  function ShouldShowNudge(scenario: Scenario, title: string): (r: bool)
    ensures scenario == 1 ==> !r
    ensures title == [] ==> !r
  {
    scenario >= 2 && HasTrigger(title)
  }

  /** The classifier against the index-based reference definition of "occurs":
      a title is flagged exactly when the scenario is at least 2 and some
      trigger word occurs at some index of it. In scenario 1 nothing is
      flagged. */
  lemma ShouldShowNudgeIffTriggerOccurs(scenario: Scenario, title: string)
    ensures ShouldShowNudge(scenario, title) <==>
      scenario >= 2 && exists k, i :: 0 <= k < |Triggers| && OccursAt(title, Triggers[k], i)
  {
    IncludesIffOccurs(title, IncomeTrigger);
    IncludesIffOccurs(title, KpiTrigger);
    IncludesIffOccurs(title, PerformanceTrigger);
    if exists k, i :: 0 <= k < |Triggers| && OccursAt(title, Triggers[k], i) {
      var k, i :| 0 <= k < |Triggers| && OccursAt(title, Triggers[k], i);
      assert k == 0 || k == 1 || k == 2;
    }
    if Includes(title, IncomeTrigger) {
      var i :| OccursAt(title, IncomeTrigger, i);
      assert OccursAt(title, Triggers[0], i);
    } else if Includes(title, KpiTrigger) {
      var i :| OccursAt(title, KpiTrigger, i);
      assert OccursAt(title, Triggers[1], i);
    } else if Includes(title, PerformanceTrigger) {
      var i :| OccursAt(title, PerformanceTrigger, i);
      assert OccursAt(title, Triggers[2], i);
    }
  }

  // ---------------------------------------------------------------------------
  // Task list

  /** The list shape every state of the workspace keeps: three slots with
      ids '1', '2', '3' in that order. */
  predicate WellFormedTasks(tasks: seq<Task>) {
    |tasks| == 3 && tasks[0].id == "1" && tasks[1].id == "2" && tasks[2].id == "3"
  }

  /** The per-task step of a title edit: the id is kept, and the task is
      either left alone or carries the new title with a flag freshly
      computed by the classifier. */
  function EditedTask(task: Task, id: string, title: string, scenario: Scenario): (r: Task)
    ensures r.id == task.id
    ensures r == task || (r.id == id && r.title == title && r.showNudge == ShouldShowNudge(scenario, title))
  {
    if task.id == id then task.(title := title, showNudge := ShouldShowNudge(scenario, title)) else task
  }

  /** A title edit mapped over the list; it keeps the list's length. */
  function EditTitle(tasks: seq<Task>, id: string, title: string, scenario: Scenario): (r: seq<Task>)
    ensures |r| == |tasks|
  {
    if tasks == [] then []
    else [EditedTask(tasks[0], id, title, scenario)] + EditTitle(tasks[1..], id, title, scenario)
  }

  /** A title edit keeps length and order and every id; the slot whose id
      matches gets the new title and a flag freshly computed by the
      classifier; every other slot is left as it was. */
  lemma {:induction false} EditTitleAt(tasks: seq<Task>, id: string, title: string, scenario: Scenario, k: nat)
    requires k < |tasks|
    ensures |EditTitle(tasks, id, title, scenario)| == |tasks|
    ensures var r := EditTitle(tasks, id, title, scenario);
      && r[k].id == tasks[k].id
      && (tasks[k].id == id ==> r[k].title == title && r[k].showNudge == ShouldShowNudge(scenario, title))
      && (tasks[k].id != id ==> r[k] == tasks[k])
  {
    if k > 0 {
      EditTitleAt(tasks[1..], id, title, scenario, k - 1);
    } else if |tasks| > 1 {
      EditTitleAt(tasks[1..], id, title, scenario, 0);
    }
  }

  /** An edit naming an id that is not in the list changes nothing. */
  lemma {:induction false} EditTitleUnknownId(tasks: seq<Task>, id: string, title: string, scenario: Scenario)
    requires forall k :: 0 <= k < |tasks| ==> tasks[k].id != id
    ensures EditTitle(tasks, id, title, scenario) == tasks
  {
    var r := EditTitle(tasks, id, title, scenario);
    if tasks != [] {
      EditTitleAt(tasks, id, title, scenario, 0);
    }
    forall k | 0 <= k < |tasks|
      ensures r[k] == tasks[k]
    {
      EditTitleAt(tasks, id, title, scenario, k);
    }
  }

  /** A title edit keeps the three-slot shape. */
  lemma EditTitleKeepsShape(tasks: seq<Task>, id: string, title: string, scenario: Scenario)
    requires WellFormedTasks(tasks)
    ensures WellFormedTasks(EditTitle(tasks, id, title, scenario))
  {
    EditTitleAt(tasks, id, title, scenario, 0);
    EditTitleAt(tasks, id, title, scenario, 1);
    EditTitleAt(tasks, id, title, scenario, 2);
  }

  /** Every flag is what the classifier gives for its title in `scenario`. */
  predicate FlagsAgree(tasks: seq<Task>, scenario: Scenario) {
    forall k :: 0 <= k < |tasks| ==> tasks[k].showNudge == ShouldShowNudge(scenario, tasks[k].title)
  }

  /** Every flagged task's title contains a trigger word. */
  predicate FlagsJustified(tasks: seq<Task>) {
    forall k :: 0 <= k < |tasks| ==> tasks[k].showNudge ==> HasTrigger(tasks[k].title)
  }

  /** A title edit keeps the flags in agreement with the classifier under the
      scenario it runs in, and keeps every flag justified by a trigger word. */
  lemma EditTitleKeepsFlags(tasks: seq<Task>, id: string, title: string, scenario: Scenario)
    ensures FlagsAgree(tasks, scenario) ==> FlagsAgree(EditTitle(tasks, id, title, scenario), scenario)
    ensures FlagsJustified(tasks) ==> FlagsJustified(EditTitle(tasks, id, title, scenario))
  {
    forall k | 0 <= k < |tasks| {
      EditTitleAt(tasks, id, title, scenario, k);
    }
  }

  /** The first task with the given id, as the array search finds it. */
  function Find(tasks: seq<Task>, id: string): (r: Option<Task>)
    ensures r.None? <==> forall k :: 0 <= k < |tasks| ==> tasks[k].id != id
    ensures r.Some? ==> r.value.id == id
    ensures r.Some? ==>
      exists k :: 0 <= k < |tasks| && tasks[k] == r.value && forall j :: 0 <= j < k ==> tasks[j].id != id
  {
    if tasks == [] then None
    else if tasks[0].id == id then Some(tasks[0])
    else
      var r := Find(tasks[1..], id);
      if r.Some? then
        var k :| 0 <= k < |tasks[1..]| && tasks[1..][k] == r.value && forall j :: 0 <= j < k ==> tasks[1..][j].id != id;
        assert tasks[k + 1] == r.value;
        r
      else
        r
  }

  /** In a well-formed list every slot is found by its own id. */
  lemma FindOwnSlot(tasks: seq<Task>, k: nat)
    requires WellFormedTasks(tasks) && k < 3
    ensures Find(tasks, tasks[k].id) == Some(tasks[k])
  {
    var r := Find(tasks, tasks[k].id);
    var j :| 0 <= j < |tasks| && tasks[j] == r.value && forall i :: 0 <= i < j ==> tasks[i].id != tasks[k].id;
    assert j == k;
  }

  // ---------------------------------------------------------------------------
  // Scenario snapshots

  const DemoTitle: string := "本月收入 10 万"

  /** Scenario 1: three empty, unflagged slots; also the initial list. */
  const EmptySlots: seq<Task> := [Task("1", "", false), Task("2", "", false), Task("3", "", false)]

  /** Scenarios 2 and 3: slot 1 holds an output-style title and is flagged. */
  const DemoSlots: seq<Task> := [Task("1", DemoTitle, true), Task("2", "", false), Task("3", "", false)]

  /** The list after switching to `scenario`: scenarios 1 to 3 install a
      three-slot preset in which only slot 1 of scenarios 2 and 3 is flagged
      and slots 2 and 3 are empty; scenarios 4 and 5 keep the previous
      list. */
  function ScenarioTasks(scenario: Scenario, previous: seq<Task>): (r: seq<Task>)
    ensures scenario >= 4 ==> r == previous
    ensures scenario <= 3 ==> WellFormedTasks(r)
    ensures scenario <= 3 ==> forall k :: 0 <= k < 3 ==> r[k].showNudge == (scenario >= 2 && k == 0)
    ensures scenario == 1 ==> r[0].title == ""
    ensures scenario == 2 || scenario == 3 ==> r[0].title == DemoTitle
    ensures scenario <= 3 ==> r[1].title == "" && r[2].title == ""
  {
    if scenario == 1 then EmptySlots
    else if scenario == 2 || scenario == 3 then DemoSlots
    else previous
  }

  /** A switch keeps the three-slot shape, whatever the scenario. */
  lemma ScenarioTasksKeepShape(scenario: Scenario, previous: seq<Task>)
    requires WellFormedTasks(previous)
    ensures WellFormedTasks(ScenarioTasks(scenario, previous))
  {
  }

  /** The flags of the preset lists of scenarios 1, 2 and 3 are what the
      classifier computes for their titles in that scenario. */
  lemma ScenarioFlagsAgreeWithClassifier(scenario: Scenario, previous: seq<Task>, k: nat)
    requires scenario <= 3 && k < 3
    ensures var t := ScenarioTasks(scenario, previous)[k];
      t.showNudge == ShouldShowNudge(scenario, t.title)
  {
    if scenario >= 2 && k == 0 {
      assert OccursAt(DemoTitle, IncomeTrigger, 2);
      IncludesFromOccurrence(DemoTitle, IncomeTrigger, 2);
    }
  }

  /** A switch to scenario 1, 2 or 3 leaves every flag in agreement with the
      classifier under the new scenario; any switch keeps every flag
      justified by a trigger word. */
  lemma ScenarioTasksKeepFlags(scenario: Scenario, previous: seq<Task>)
    ensures scenario <= 3 ==> FlagsAgree(ScenarioTasks(scenario, previous), scenario)
    ensures FlagsJustified(previous) ==> FlagsJustified(ScenarioTasks(scenario, previous))
  {
    if scenario <= 3 {
      ScenarioFlagsAgreeWithClassifier(scenario, previous, 0);
      ScenarioFlagsAgreeWithClassifier(scenario, previous, 1);
      ScenarioFlagsAgreeWithClassifier(scenario, previous, 2);
    }
  }

  /** Scenarios 4 and 5 keep flags computed in an earlier scenario: a trigger
      word typed in scenario 1 stays unflagged after switching to 4, although
      the classifier would now flag it. */
  lemma StaleFlagAfterSwitchToFour()
    ensures var t := ScenarioTasks(4, EditTitle(EmptySlots, "1", IncomeTrigger, 1))[0];
      t.title == IncomeTrigger && !t.showNudge && ShouldShowNudge(4, t.title)
  {
    EditTitleAt(EmptySlots, "1", IncomeTrigger, 1, 0);
    assert IsPrefix(IncomeTrigger, IncomeTrigger);
  }

  // ---------------------------------------------------------------------------
  // Coaching panel content

  /** Why the panel holds its transcript; `Generic` is the component's 'none' tag. */
  datatype SidebarScenario = Welcome | Nudge | Generic

  datatype Role = Cofo | User

  datatype Message = Message(role: Role, content: string)

  const WelcomeMessages: seq<Message> := [
    Message(Cofo, "经冬，欢迎来到你的\"行动\"工作台。在 Co-Fo，我们设定目标的方式有点不同。我们不追求 KPI 压力，而是使用 \"NICE\" 框架，帮助你聚焦于\"可控\" (Controllable) 和\"赋能\" (Energizing) 的行动。"),
    Message(Cofo, "准备好尝试了吗？…… 让我们先一起商议并设定你的第一个\"近期 (Near-term)\"里程碑。")
  ]

  const NudgeOpening: string := "经冬，关于\""
  const NudgeClosing: string := "\"这个目标... 这是一个非常棒的\"产出 (Output)\"目标！为了确保我们能达成它，我建议我们一起\"商议\"一下，把它转化为 1-3 个我们本周\"可控\"的\"投入 (Input)\"任务。比如\"完成 10 次客户访谈\"？我们可以\"商议\"一下，本周\"可控的投入\"应该是什么吗？"

  /** The coaching message for a flagged task, quoting its title. */
  function NudgeMessage(title: string): (m: Message)
    ensures m.role == Cofo
    ensures Includes(m.content, title)
  {
    IncludesMiddle(NudgeOpening, title, NudgeClosing);
    Message(Cofo, NudgeOpening + title + NudgeClosing)
  }

  const GenericMessage: Message := Message(Cofo, "经冬，让我们一起商议一下这个任务。你希望如何推进它？")

  /** The transcript always matches its tag: the two welcome messages, one
      nudge message about some title, or the one generic message. */
  ghost predicate PanelConsistent(context: SidebarScenario, messages: seq<Message>) {
    match context
    case Welcome => messages == WelcomeMessages
    case Nudge => exists title :: messages == [NudgeMessage(title)]
    case Generic => messages == [GenericMessage]
  }

  /** What a consultation puts in the panel. */
  datatype Panel = Panel(context: SidebarScenario, messages: seq<Message>)

  /** The panel content for consulting on `id`: a found, flagged task gets the
      nudge context and one coach message quoting its title; anything else,
      an unknown id included, gets the generic context and one generic
      message. */
  function ConsultPanel(tasks: seq<Task>, id: string): (p: Panel)
    ensures |p.messages| == 1 && p.messages[0].role == Cofo
    ensures p.context != Welcome
    ensures PanelConsistent(p.context, p.messages)
    ensures p.context == Nudge <==> Find(tasks, id).Some? && Find(tasks, id).value.showNudge
    ensures p.context == Nudge ==> Includes(p.messages[0].content, Find(tasks, id).value.title)
    ensures p.context == Generic ==> p.messages == [GenericMessage]
  {
    var found := Find(tasks, id);
    if found.Some? && found.value.showNudge then
      Panel(Nudge, [NudgeMessage(found.value.title)])
    else
      Panel(Generic, [GenericMessage])
  }

  /** On a well-formed list, consulting a slot by its id gives the nudge
      context exactly when that slot is flagged, and the message quotes that
      slot's title. */
  lemma ConsultOnSlot(tasks: seq<Task>, k: nat)
    requires WellFormedTasks(tasks) && k < 3
    ensures var p := ConsultPanel(tasks, tasks[k].id);
      (p.context == Nudge <==> tasks[k].showNudge) &&
      (p.context == Nudge ==> Includes(p.messages[0].content, tasks[k].title))
  {
    FindOwnSlot(tasks, k);
  }

  // ---------------------------------------------------------------------------
  // The workspace component

  /** The workspace's component state. `pendingHides` counts the hide
      callbacks queued by budget clicks and not yet fired; none is ever
      cancelled. */
  class Workspace {
    var currentScenario: Scenario
    var isSidebarOpen: bool
    var sidebarMessages: seq<Message>
    var sidebarScenario: SidebarScenario
    var showBudgetTooltip: bool
    var showAINotification: bool
    var niceAreaTasks: seq<Task>
    var pendingHides: nat

    /** The list keeps its shape; up to scenario 3 every flag is what the
        classifier gives for its title, and in every scenario a flagged title
        contains a trigger word; the transcript matches its tag; and a shown
        budget tooltip always has a hide queued. */
    ghost predicate Valid()
      reads this
    {
      && WellFormedTasks(niceAreaTasks)
      && (currentScenario <= 3 ==> FlagsAgree(niceAreaTasks, currentScenario))
      && FlagsJustified(niceAreaTasks)
      && PanelConsistent(sidebarScenario, sidebarMessages)
      && (showBudgetTooltip ==> pendingHides > 0)
    }

    /** Mounting: the initial state, then the scenario effect, which opens the
        welcome panel because the initial scenario is 1. */
    constructor ()
      ensures Valid()
      ensures currentScenario == 1
      ensures isSidebarOpen && sidebarScenario == Welcome && sidebarMessages == WelcomeMessages
      ensures !showBudgetTooltip && !showAINotification
      ensures niceAreaTasks == EmptySlots && pendingHides == 0
    {
      currentScenario := 1;
      isSidebarOpen := false;
      sidebarMessages := [];
      sidebarScenario := Generic;
      showBudgetTooltip := false;
      showAINotification := false;
      niceAreaTasks := EmptySlots;
      pendingHides := 0;
      new;
      ScenarioEffect();
    }

    /** The effect that runs after a render in which `currentScenario`
        changed: in scenario 1 it opens the welcome panel. */
    method ScenarioEffect()
      modifies this
      ensures currentScenario == old(currentScenario)
      ensures niceAreaTasks == old(niceAreaTasks) && pendingHides == old(pendingHides)
      ensures showBudgetTooltip == old(showBudgetTooltip) && showAINotification == old(showAINotification)
      ensures currentScenario == 1 ==>
        isSidebarOpen && sidebarScenario == Welcome && sidebarMessages == WelcomeMessages
      ensures currentScenario != 1 ==>
        isSidebarOpen == old(isSidebarOpen) && sidebarScenario == old(sidebarScenario) &&
        sidebarMessages == old(sidebarMessages)
    {
      if currentScenario == 1 {
        isSidebarOpen := true;
        sidebarScenario := Welcome;
        sidebarMessages := WelcomeMessages;
      }
    }

    /** A keystroke in slot `id`: only that slot's title and flag change. */
    method TitleChange(id: string, title: string)
      requires Valid()
      modifies this
      ensures Valid()
      ensures niceAreaTasks == EditTitle(old(niceAreaTasks), id, title, currentScenario)
      ensures currentScenario == old(currentScenario) && isSidebarOpen == old(isSidebarOpen)
      ensures sidebarScenario == old(sidebarScenario) && sidebarMessages == old(sidebarMessages)
      ensures showBudgetTooltip == old(showBudgetTooltip) && showAINotification == old(showAINotification)
      ensures pendingHides == old(pendingHides)
    {
      EditTitleKeepsShape(niceAreaTasks, id, title, currentScenario);
      EditTitleKeepsFlags(niceAreaTasks, id, title, currentScenario);
      niceAreaTasks := EditTitle(niceAreaTasks, id, title, currentScenario);
    }

    /** A consult request on `id`: the panel always opens, with the content
        the consultation selects. */
    method Consult(id: string)
      requires Valid()
      modifies this
      ensures Valid()
      ensures isSidebarOpen
      ensures Panel(sidebarScenario, sidebarMessages) == ConsultPanel(niceAreaTasks, id)
      ensures currentScenario == old(currentScenario) && niceAreaTasks == old(niceAreaTasks)
      ensures showBudgetTooltip == old(showBudgetTooltip) && showAINotification == old(showAINotification)
      ensures pendingHides == old(pendingHides)
    {
      var panel := ConsultPanel(niceAreaTasks, id);
      isSidebarOpen := true;
      sidebarScenario := panel.context;
      sidebarMessages := panel.messages;
    }

    /** A budget click: ignored before scenario 4; from scenario 4 on it shows
        the tooltip and queues one more hide, leaving earlier ones queued. */
    method BudgetClick(id: string)
      requires Valid()
      modifies this
      ensures Valid()
      ensures old(currentScenario) < 4 ==> showBudgetTooltip == old(showBudgetTooltip) && pendingHides == old(pendingHides)
      ensures old(currentScenario) >= 4 ==> showBudgetTooltip && pendingHides == old(pendingHides) + 1
      ensures currentScenario == old(currentScenario) && niceAreaTasks == old(niceAreaTasks)
      ensures isSidebarOpen == old(isSidebarOpen)
      ensures sidebarScenario == old(sidebarScenario) && sidebarMessages == old(sidebarMessages)
      ensures showAINotification == old(showAINotification)
    {
      if currentScenario >= 4 {
        showBudgetTooltip := true;
        pendingHides := pendingHides + 1;
      }
    }

    /** One queued hide fires: the tooltip is hidden, whichever click queued
        it and whatever happened since. */
    method FireHide()
      requires Valid()
      requires pendingHides > 0
      modifies this
      ensures Valid()
      ensures !showBudgetTooltip && pendingHides == old(pendingHides) - 1
      ensures currentScenario == old(currentScenario) && niceAreaTasks == old(niceAreaTasks)
      ensures isSidebarOpen == old(isSidebarOpen)
      ensures sidebarScenario == old(sidebarScenario) && sidebarMessages == old(sidebarMessages)
      ensures showAINotification == old(showAINotification)
    {
      showBudgetTooltip := false;
      pendingHides := pendingHides - 1;
    }

    /** A scenario switch: close the panel, hide the tooltip and the toast,
        install the scenario's list (4 and 5 keep the old one), show the toast
        in scenario 5, then run the effect if the scenario actually changed.
        The transcript, its tag and the queued hides are not touched. */
    method ScenarioChange(scenario: Scenario)
      requires Valid()
      modifies this
      ensures Valid()
      ensures currentScenario == scenario
      ensures niceAreaTasks == ScenarioTasks(scenario, old(niceAreaTasks))
      ensures !showBudgetTooltip
      ensures showAINotification == (scenario == 5)
      ensures pendingHides == old(pendingHides)
      ensures scenario == 1 && old(currentScenario) != 1 ==>
        isSidebarOpen && sidebarScenario == Welcome && sidebarMessages == WelcomeMessages
      ensures !(scenario == 1 && old(currentScenario) != 1) ==>
        !isSidebarOpen && sidebarScenario == old(sidebarScenario) && sidebarMessages == old(sidebarMessages)
    {
      ScenarioTasksKeepFlags(scenario, niceAreaTasks);
      var previous := currentScenario;
      currentScenario := scenario;
      isSidebarOpen := false;
      showBudgetTooltip := false;
      showAINotification := false;
      if scenario == 1 {
        niceAreaTasks := EmptySlots;
      } else if scenario == 2 || scenario == 3 {
        niceAreaTasks := DemoSlots;
      } else if scenario == 5 {
        showAINotification := true;
      }
      if currentScenario != previous {
        ScenarioEffect();
      }
    }

    /** The global coach icon: opens the panel on whatever it last held. */
    method OpenSidebar()
      requires Valid()
      modifies this
      ensures Valid()
      ensures isSidebarOpen
      ensures sidebarScenario == old(sidebarScenario) && sidebarMessages == old(sidebarMessages)
      ensures currentScenario == old(currentScenario) && niceAreaTasks == old(niceAreaTasks)
      ensures showBudgetTooltip == old(showBudgetTooltip) && showAINotification == old(showAINotification)
      ensures pendingHides == old(pendingHides)
    {
      isSidebarOpen := true;
    }

    /** The panel's close control: hides the panel and keeps its transcript. */
    method CloseSidebar()
      requires Valid()
      modifies this
      ensures Valid()
      ensures !isSidebarOpen
      ensures sidebarScenario == old(sidebarScenario) && sidebarMessages == old(sidebarMessages)
      ensures currentScenario == old(currentScenario) && niceAreaTasks == old(niceAreaTasks)
      ensures showBudgetTooltip == old(showBudgetTooltip) && showAINotification == old(showAINotification)
      ensures pendingHides == old(pendingHides)
    {
      isSidebarOpen := false;
    }

    /** The toast's close control. */
    method CloseNotification()
      requires Valid()
      modifies this
      ensures Valid()
      ensures !showAINotification
      ensures isSidebarOpen == old(isSidebarOpen)
      ensures sidebarScenario == old(sidebarScenario) && sidebarMessages == old(sidebarMessages)
      ensures currentScenario == old(currentScenario) && niceAreaTasks == old(niceAreaTasks)
      ensures showBudgetTooltip == old(showBudgetTooltip) && pendingHides == old(pendingHides)
    {
      showAINotification := false;
    }

    /** The budget tooltip prop handed to the card with id `taskId`: only
        slot '1' ever shows it, and it shows whenever the tooltip is on; a
        card shown the tooltip always has a hide queued behind it. */
    function BudgetTooltipFor(taskId: string): (shown: bool)
      reads this
      ensures shown ==> taskId == "1"
      ensures taskId == "1" ==> shown == showBudgetTooltip
      ensures Valid() && shown ==> pendingHides > 0
    {
      showBudgetTooltip && taskId == "1"
    }
  }

  // ---------------------------------------------------------------------------
  // Event sequences

  /** Two budget clicks in scenario 4, then the first click's hide fires: the
      tooltip is hidden although the second click's hide is still queued. */
  method StaleHideAfterReclick() returns (shown: bool, pending: nat)
    ensures !shown && pending == 1
  {
    var w := new Workspace();
    w.ScenarioChange(4);
    w.BudgetClick("1");
    w.BudgetClick("1");
    w.FireHide();
    shown, pending := w.showBudgetTooltip, w.pendingHides;
  }

  /** A hide queued before a scenario switch survives it and hides a tooltip
      shown after the switch back. */
  method StaleHideAfterSwitch() returns (shown: bool, pending: nat)
    ensures !shown && pending == 1
  {
    var w := new Workspace();
    w.ScenarioChange(4);
    w.BudgetClick("1");
    w.ScenarioChange(5);
    w.ScenarioChange(4);
    w.BudgetClick("1");
    w.FireHide();
    shown, pending := w.showBudgetTooltip, w.pendingHides;
  }

  /** What a card shows as its budget tooltip is its prop, which the
      workspace hands only to card '1', and then only with a hide queued. */
  lemma CardBudgetTooltip(w: Workspace, id: string)
    ensures TaskCard.BudgetTooltipVisible(w.BudgetTooltipFor(id)) ==> id == "1"
    ensures w.Valid() && TaskCard.BudgetTooltipVisible(w.BudgetTooltipFor(id)) ==> w.pendingHides > 0
  {
  }

  /** The budget handler ignores which card was clicked: a click on card '2'
      in scenario 4 puts the tooltip on card '1' and not on card '2'. */
  method BudgetClickOnSlotTwo() returns (onSlotOne: bool, onSlotTwo: bool)
    ensures onSlotOne && !onSlotTwo
  {
    var w := new Workspace();
    w.ScenarioChange(4);
    w.BudgetClick("2");
    onSlotOne := w.BudgetTooltipFor("1");
    onSlotTwo := w.BudgetTooltipFor("2");
  }

  /** Selecting scenario 1 while already in it closes the welcome panel and
      does not reopen it, since the effect does not run again. */
  method ReselectScenarioOne() returns (openBefore: bool, openAfter: bool)
    ensures openBefore && !openAfter
  {
    var w := new Workspace();
    openBefore := w.isSidebarOpen;
    w.ScenarioChange(1);
    openAfter := w.isSidebarOpen;
  }

  /** Closing the panel and reopening it with the icon shows the same
      transcript under the same tag. */
  method CloseThenReopen(id: string) returns (same: bool)
    ensures same
  {
    var w := new Workspace();
    w.Consult(id);
    var context, messages := w.sidebarScenario, w.sidebarMessages;
    w.CloseSidebar();
    w.OpenSidebar();
    same := w.isSidebarOpen && w.sidebarScenario == context && w.sidebarMessages == messages;
  }

  /** The demo walk-through: an output-style title typed in scenario 1 is not
      flagged; switching to scenario 2 installs a flagged slot 1; hovering it
      shows the hook tooltip; consulting it opens the nudge panel quoting its
      title. */
  method WalkThrough() returns (flaggedInOne: bool, flaggedInTwo: bool, hookShown: bool, context: SidebarScenario)
    ensures !flaggedInOne && flaggedInTwo && hookShown && context == Nudge
  {
    var w := new Workspace();
    w.TitleChange("1", DemoTitle);
    EditTitleAt(EmptySlots, "1", DemoTitle, 1, 0);
    flaggedInOne := w.niceAreaTasks[0].showNudge;
    w.ScenarioChange(2);
    flaggedInTwo := w.niceAreaTasks[0].showNudge;
    var card := new TaskCard.Card(w.niceAreaTasks[0].id);
    card.MouseEnter(w.niceAreaTasks[0].showNudge);
    hookShown := card.HookTooltipShown(w.niceAreaTasks[0].showNudge);
    w.Consult(card.id);
    ConsultOnSlot(w.niceAreaTasks, 0);
    context := w.sidebarScenario;
  }
}
