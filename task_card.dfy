/** One task card of the workspace: its hover state, what it shows, and the
    events it forwards to the workspace. The card's props (`showNudge`,
    `showBudgetTooltip`) belong to the parent and may change between two
    events, so they are parameters here rather than fields. */
module TaskCard {

  /** The card's own state: whether the pointer is over it, and whether the
      hook tooltip has been switched on by a hover. */
  datatype Hover = Hover(isHovered: bool, showHookTooltip: bool)

  /** The state a card starts in. */
  const Unhovered: Hover := Hover(false, false)

  /** Pointer enters the card: it is hovered, and the hook tooltip is switched
      on only when the card is flagged at that moment; an unflagged enter
      leaves the tooltip flag as it was. */
  function Enter(h: Hover, showNudge: bool): (r: Hover)
    ensures r.isHovered
    ensures showNudge ==> r.showHookTooltip
    ensures !showNudge ==> r.showHookTooltip == h.showHookTooltip
  {
    if showNudge then Hover(true, true) else h.(isHovered := true)
  }

  /** Pointer leaves the card: both flags are cleared whatever they were. */
  function Leave(h: Hover): (r: Hover)
    ensures !r.isHovered && !r.showHookTooltip
  {
    Unhovered
  }

  /** The hook tooltip flag is only ever set while the card is hovered: both
      start cleared, an enter sets the hover flag and a leave clears both. */
  predicate TooltipNeedsHover(h: Hover) {
    h.showHookTooltip ==> h.isHovered
  }

  /** The card starts in a state that keeps the hover rule, and both handlers
      keep it; so a shown hook tooltip always sits on a hovered card. */
  lemma TooltipNeedsHoverPreserved(h: Hover, showNudge: bool)
    ensures TooltipNeedsHover(Unhovered)
    ensures TooltipNeedsHover(h) ==> TooltipNeedsHover(Enter(h, showNudge)) && TooltipNeedsHover(Leave(h))
    ensures TooltipNeedsHover(h) && HookTooltipVisible(h, showNudge) ==> h.isHovered
  {
  }

  /** The hook tooltip is on screen only while its flag is set and the card is
      flagged now. */
  predicate HookTooltipVisible(h: Hover, showNudge: bool) {
    h.showHookTooltip && showNudge
  }

  /** The halo follows the card's flag alone; it takes no hover state. */
  predicate HaloVisible(showNudge: bool) {
    showNudge
  }

  /** The budget tooltip is exactly the parent's prop; the card keeps no
      state for it. */
  predicate BudgetTooltipVisible(showBudgetTooltip: bool) {
    showBudgetTooltip
  }

  /** Two enters in a row with the same flag leave the card as one does. */
  lemma EnterIdempotent(h: Hover, showNudge: bool)
    ensures Enter(Enter(h, showNudge), showNudge) == Enter(h, showNudge)
  {
  }

  /** Leaving resets the card to its initial state from any state. */
  lemma LeaveResets(h: Hover)
    ensures Leave(h) == Unhovered
    ensures !HookTooltipVisible(Leave(h), true)
  {
  }

  /** The hook tooltip is never shown on an unflagged card, and after an
      enter on a flagged card it is shown. */
  lemma HookTooltipOnlyWhenFlagged(h: Hover, showNudge: bool)
    ensures !showNudge ==> !HookTooltipVisible(h, showNudge)
    ensures showNudge ==> HookTooltipVisible(Enter(h, showNudge), showNudge)
  {
  }

  /** A flagged card shows its halo before any hover, while its hook tooltip
      stays off; and the hook tooltip never shows without the halo. */
  lemma HookTooltipImpliesHalo(h: Hover, showNudge: bool)
    ensures showNudge ==> HaloVisible(showNudge) && !HookTooltipVisible(Unhovered, showNudge)
    ensures HookTooltipVisible(h, showNudge) ==> HaloVisible(showNudge)
  {
  }

  /** A flag that is cleared and set again while the pointer stays on the card
      brings the hook tooltip back without a new enter: the tooltip flag is not
      cleared when the card stops being flagged. */
  lemma StaleHookFlag()
    ensures var h := Enter(Unhovered, true);
      !HookTooltipVisible(h, false) && HookTooltipVisible(h, true)
  {
  }

  /** A card that becomes flagged while the pointer is already on it (the
      user types a trigger word into the hovered card) shows no hook tooltip
      until the pointer leaves and enters again: the flag is read only on
      enter. */
  lemma FlaggedWhileHovered()
    ensures var h := Enter(Unhovered, false);
      h.isHovered && !HookTooltipVisible(h, true)
    ensures HookTooltipVisible(Enter(Leave(Enter(Unhovered, false)), true), true)
  {
  }

  /** What the user does on a card. */
  datatype CardEvent =
    | HookAction              // the hook tooltip's action button; it is on
                              // screen, so it can be pressed, only while
                              // HookTooltipVisible holds
    | ConsultButton           // the card's consult button
    | BudgetButton            // the card's budget button
    | InputChange(value: string)  // a keystroke in the title input

  /** The call a card makes on the workspace. */
  datatype ParentCall =
    | Consult(id: string)
    | BudgetClick(id: string)
    | TitleChange(id: string, title: string)

  /** Which parent callback an event on card `id` invokes. */
  function Dispatch(id: string, ev: CardEvent): (c: ParentCall)
    ensures c.id == id
    ensures (ev == HookAction || ev == ConsultButton) <==> c.Consult?
    ensures ev == BudgetButton <==> c.BudgetClick?
    ensures ev.InputChange? <==> c.TitleChange?
    ensures ev.InputChange? ==> c.title == ev.value
  {
    match ev
    case HookAction => Consult(id)
    case ConsultButton => Consult(id)
    case BudgetButton => BudgetClick(id)
    case InputChange(value) => TitleChange(id, value)
  }

  /** A mounted card with its two state fields. */
  class Card {
    const id: string
    var isHovered: bool
    var showHookTooltip: bool

    /** The hover rule on the card's fields. */
    ghost predicate Valid()
      reads this
    {
      TooltipNeedsHover(State())
    }

    /** The card's state as a value. */
    function State(): Hover
      reads this
    {
      Hover(isHovered, showHookTooltip)
    }

    constructor (id: string)
      ensures this.id == id
      ensures State() == Unhovered
      ensures Valid()
    {
      this.id := id;
      isHovered := false;
      showHookTooltip := false;
    }

    method MouseEnter(showNudge: bool)
      requires Valid()
      modifies this
      ensures Valid()
      ensures State() == Enter(old(State()), showNudge)
    {
      isHovered := true;
      if showNudge {
        showHookTooltip := true;
      }
    }

    method MouseLeave()
      requires Valid()
      modifies this
      ensures Valid()
      ensures State() == Leave(old(State()))
    {
      isHovered := false;
      showHookTooltip := false;
    }

    /** Whether the hook tooltip is on screen, given the current flag. */
    function HookTooltipShown(showNudge: bool): (shown: bool)
      reads this
      ensures shown ==> showNudge
      ensures shown == HookTooltipVisible(State(), showNudge)
    {
      showHookTooltip && showNudge
    }
  }
}
