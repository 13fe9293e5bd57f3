/**
  Which handler a message reaches. aiogram's dispatcher tries the handlers
  in the order they were registered and runs the first one whose filters
  all accept the message; this rule belongs to the library, and is taken
  here as an assumption. The filters and the order are those of the
  decorators in bot.py:52-273.
 */
module Routing {
  import opened Wrappers
  import opened Conversation

  datatype Handler =
    | CmdStart | ShowFaq | ContactAdmin
    | StartCalc | GetPrice | GetWeight | GetMethod | GetInsurance
    | TicketStart | TicketPhoto | TicketPhotoInvalid | TicketName
    | TicketPhoneContact | TicketPhoneText | TicketMethod | TicketAddress

  /** The position of each handler in the order the module registers them
      (the decorators at bot.py:52, 62, 69, 80, 85, 101, 120, 143, 178, 183,
      199, 206, 225, 236, 258, 273). */
  function Rank(h: Handler): nat {
    match h
    case CmdStart => 0
    case ShowFaq => 1
    case ContactAdmin => 2
    case StartCalc => 3
    case GetPrice => 4
    case GetWeight => 5
    case GetMethod => 6
    case GetInsurance => 7
    case TicketStart => 8
    case TicketPhoto => 9
    case TicketPhotoInvalid => 10
    case TicketName => 11
    case TicketPhoneContact => 12
    case TicketPhoneText => 13
    case TicketMethod => 14
    case TicketAddress => 15
  }

  const StartCommand: string := "/start"
  const FaqButton: string := "FAQ"
  const AdminButton: string := "Контакты администратора"
  const CalcButton: string := "Калькулятор доставки"
  const TicketButton: string := "Создать тикет"

  /** The exact texts caught by a handler without a state filter. */
  predicate IsMenuText(ev: Event) {
    ev.TextMsg? && (ev.text == StartCommand || ev.text == FaqButton || ev.text == AdminButton
                 || ev.text == CalcButton || ev.text == TicketButton)
  }

  /** The filters of each handler's decorator. */
  predicate Accepts(h: Handler, st: Step, ev: Event) {
    match h
    case CmdStart => TextOf(ev) == Some(StartCommand)
    case ShowFaq => TextOf(ev) == Some(FaqButton)
    case ContactAdmin => TextOf(ev) == Some(AdminButton)
    case StartCalc => TextOf(ev) == Some(CalcButton)
    case GetPrice => st == AwaitingPrice
    case GetWeight => st == AwaitingWeight
    case GetMethod => st == AwaitingCalcMethod
    case GetInsurance => st == AwaitingInsurance
    case TicketStart => TextOf(ev) == Some(TicketButton)
    case TicketPhoto => st == AwaitingPhoto && ev.Photo?
    case TicketPhotoInvalid => st == AwaitingPhoto
    case TicketName => st == AwaitingName
    case TicketPhoneContact => st == AwaitingPhone && ev.Contact?
    case TicketPhoneText => st == AwaitingPhone
    case TicketMethod => st == AwaitingTicketMethod
    case TicketAddress => st == AwaitingAddress
  }

  /** The handler that runs, or `None` when the message is dropped: the
      handlers' filters tried in registration order. */
  function Route(st: Step, ev: Event): (h: Option<Handler>)
    ensures h.Some? ==> Accepts(h.value, st, ev)
  {
    var t := TextOf(ev);
    if t == Some(StartCommand) then Some(CmdStart)
    else if t == Some(FaqButton) then Some(ShowFaq)
    else if t == Some(AdminButton) then Some(ContactAdmin)
    else if t == Some(CalcButton) then Some(StartCalc)
    else if st == AwaitingPrice then Some(GetPrice)
    else if st == AwaitingWeight then Some(GetWeight)
    else if st == AwaitingCalcMethod then Some(GetMethod)
    else if st == AwaitingInsurance then Some(GetInsurance)
    else if t == Some(TicketButton) then Some(TicketStart)
    else if st == AwaitingPhoto && ev.Photo? then Some(TicketPhoto)
    else if st == AwaitingPhoto then Some(TicketPhotoInvalid)
    else if st == AwaitingName then Some(TicketName)
    else if st == AwaitingPhone && ev.Contact? then Some(TicketPhoneContact)
    else if st == AwaitingPhone then Some(TicketPhoneText)
    else if st == AwaitingTicketMethod then Some(TicketMethod)
    else if st == AwaitingAddress then Some(TicketAddress)
    else None
  }

  /** `Route` is the dispatcher's rule: whenever some handler accepts a
      message, a handler runs, and it is one registered no later than any
      handler that accepts; when none accepts, nothing runs. */
  lemma RouteIsFirstMatch(st: Step, ev: Event, g: Handler)
    ensures Accepts(g, st, ev) ==> Route(st, ev).Some? && Rank(Route(st, ev).value) <= Rank(g)
    ensures Route(st, ev).None? ==> !Accepts(g, st, ev)
  {
  }

  /** The handler whose state filter matches, as the step alone decides it. */
  function StepHandler(st: Step, ev: Event): Option<Handler> {
    match st
    case Idle => None
    case AwaitingPrice => Some(GetPrice)
    case AwaitingWeight => Some(GetWeight)
    case AwaitingCalcMethod => Some(GetMethod)
    case AwaitingInsurance => Some(GetInsurance)
    case AwaitingPhoto => Some(if ev.Photo? then TicketPhoto else TicketPhotoInvalid)
    case AwaitingName => Some(TicketName)
    case AwaitingPhone => Some(if ev.Contact? then TicketPhoneContact else TicketPhoneText)
    case AwaitingTicketMethod => Some(TicketMethod)
    case AwaitingAddress => Some(TicketAddress)
  }

  /** Any message that is not a menu text reaches the handler of the
      current step; in `Idle` it reaches none. */
  lemma StepMessagesReachStepHandler(st: Step, ev: Event)
    requires !IsMenuText(ev)
    ensures Route(st, ev) == StepHandler(st, ev)
  {
  }

  /** "/start", "FAQ", "Контакты администратора" and "Калькулятор доставки"
      win in every state: mid-flow, "Калькулятор доставки" restarts the
      calculator. */
  lemma MenuButtonsWinEverywhere(st: Step)
    ensures Route(st, TextMsg(StartCommand)) == Some(CmdStart)
    ensures Route(st, TextMsg(FaqButton)) == Some(ShowFaq)
    ensures Route(st, TextMsg(AdminButton)) == Some(ContactAdmin)
    ensures Route(st, TextMsg(CalcButton)) == Some(StartCalc)
  {
  }

  /** "Создать тикет" is registered after the calculator's step handlers:
      inside the calculator it is ordinary input for the current step,
      everywhere else it (re)starts the ticket. */
  lemma TicketButtonRouting(st: Step)
    ensures IsCalcStep(st) ==> Route(st, TextMsg(TicketButton)) == StepHandler(st, TextMsg(TicketButton))
    ensures !IsCalcStep(st) ==> Route(st, TextMsg(TicketButton)) == Some(TicketStart)
  {
  }

  /** "Отмена" in any state but `Idle` reaches the current step's handler;
      at the photo step that is the handler that does not clear. */
  lemma CancelReachesStepHandler(st: Step)
    requires st != Idle
    ensures Route(st, TextMsg(CancelText)) == StepHandler(st, TextMsg(CancelText))
    ensures st == AwaitingPhoto ==> Route(st, TextMsg(CancelText)) == Some(TicketPhotoInvalid)
  {
    StepMessagesReachStepHandler(st, TextMsg(CancelText));
  }
}
