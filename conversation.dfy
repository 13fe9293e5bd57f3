/**
  The per-user conversation of the shop bot: aiogram's FSM context (a
  current state and a data dictionary) as a `Session` object, and one
  method per message handler of the delivery calculator (bot.py:74-168)
  and of the ticket intake (bot.py:171-307).

  Every handler first compares the message text with "Отмена", then
  validates its input, then updates the data, then changes the state or
  re-prompts. Handlers are called only in the state their registration
  names; they do not presuppose the session invariant `Valid()`, so the
  source's defensive branches (a missing key, a missing ticket field) are
  modelled as written, and each handler proves that it keeps `Valid()` and
  that under it those branches are never taken.

  Each handler runs here as one uninterrupted method: the model assumes
  that a user's message is handled completely before that user's next one.
  The source's handlers await replies between `update_data` and
  `set_state`, so two quick messages could interleave there; the invariant
  and the two unreachability claims rest on this assumption.
 */
module Conversation {
  import opened Wrappers
  import opened Text
  import opened Numbers
  import opened Validators
  import opened Pricing

  /** The FSM state: `Idle` is aiogram's "no state"; the others are the
      states of `DeliveryCalc` and `Ticket`. */
  datatype Step =
    | Idle
    | AwaitingPrice | AwaitingWeight | AwaitingCalcMethod | AwaitingInsurance
    | AwaitingPhoto | AwaitingName | AwaitingPhone | AwaitingTicketMethod | AwaitingAddress

  predicate IsCalcStep(st: Step) {
    st == AwaitingPrice || st == AwaitingWeight || st == AwaitingCalcMethod || st == AwaitingInsurance
  }

  predicate IsTicketStep(st: Step) {
    st == AwaitingPhoto || st == AwaitingName || st == AwaitingPhone
    || st == AwaitingTicketMethod || st == AwaitingAddress
  }

  /** A value stored in the FSM data: the calculator stores floats, the
      ticket flow stores strings. */
  datatype Value = Num(x: real) | Str(s: string)

  /** The keys the handlers store under, one per keyword argument of their
      `update_data` calls: "price_rub", "shipping_cost", "total", "photo",
      "name", "phone", "method" and "address". */
  datatype Key =
    | PriceRubKey | ShippingCostKey | TotalKey
    | PhotoKey | NameKey | PhoneKey | MethodKey | AddressKey

  const NumericKeys: set<Key> := {PriceRubKey, ShippingCostKey, TotalKey}

  /** The fields the ticket completion checks for (bot.py:287). */
  const RequiredFields: set<Key> := {PhotoKey, NameKey, PhoneKey, MethodKey, AddressKey}

  /** Every `update_data` call of the source stores a float under the three
      calculator keys and a string under every other key. */
  predicate WellTyped(d: map<Key, Value>) {
    forall k :: k in d ==> (d[k].Num? <==> k in NumericKeys)
  }

  type Data = d: map<Key, Value> | WellTyped(d) witness map[]

  /** An incoming message: text, a photo (the file ids of its sizes, smallest
      first, as Telegram sends them), or a shared contact. */
  datatype Event = TextMsg(text: string) | Photo(sizes: seq<string>) | Contact(phone: string)

  /** `message.text`: `None` for photos and contacts. */
  function TextOf(ev: Event): Option<string> {
    match ev
    case TextMsg(t) => Some(t)
    case Photo(_) => None
    case Contact(_) => None
  }

  const CancelText: string := "Отмена"

  predicate IsCancel(ev: Event) {
    TextOf(ev) == Some(CancelText)
  }

  /** The reply keyboards the bot attaches. */
  datatype Keyboard =
    | NoKeyboard | MenuKb | CancelKb | CarrierKb(oneTime: bool) | YesNoKb | ContactKb | RemoveKb

  /** An outgoing effect. The three shown amounts stand for the messages
      that print them, rounded to two decimals, with the keyboard sent
      beside them; `AdminPhoto` is the attempt to send the ticket to the
      administrator. */
  datatype Reply =
    | Answer(text: string, keyboard: Keyboard)
    | YuanRateShown(rate: real, keyboard: Keyboard)
    | DutyShown(duty: real, keyboard: Keyboard)
    | TotalShown(total: real, keyboard: Keyboard)
    | AdminPhoto(chat: int, photo: string, caption: string)

  /** What a handler did: it answered, or it raised an exception that
      aiogram logs (state and data untouched). */
  datatype Outcome = Replied(replies: seq<Reply>) | Raised

  const AdminId: int := 1040886421

  const CancelAck: Reply := Answer("Действие отменено.", MenuKb)
  const PricePrompt: Reply := Answer("Введите цену товара в юанях:", CancelKb)
  const PriceRetry: Reply := Answer("Введите числовое значение.", CancelKb)
  const CalcMethodPrompt: Reply := Answer("Выберите метод доставки:", CarrierKb(false))
  const WeightRetry: Reply := Answer("Введите вес числом.", CancelKb)
  const CarrierRetry: Reply := Answer("Выберите СДЭК или Почта РФ", CancelKb)
  const InsurancePrompt: Reply := Answer("Хотите добавить защиту от рисков за 100 ₽?", YesNoKb)
  const InsuranceRetry: Reply := Answer("Выберите Да или Нет", CancelKb)
  const PhotoPrompt: Reply := Answer("Отправьте фото товара:", CancelKb)
  const NamePrompt: Reply := Answer("Введите ФИО и телеграмм юз:", CancelKb)
  const PhotoError: Reply := Answer("Ошибка при обработке фото. Попробуйте снова.", NoKeyboard)
  const PhotoRetry: Reply := Answer("Пожалуйста, отправьте именно фото.", CancelKb)
  const NameRetry: Reply := Answer("Введите имя и фамилию.", CancelKb)
  const PhonePrompt: Reply := Answer("Отправьте номер телефона:", ContactKb)
  const PhoneRetry: Reply := Answer("Введите корректный номер.", CancelKb)
  const TicketMethodPrompt: Reply := Answer("Выберите службу доставки:", CarrierKb(true))
  const AddressRetry: Reply := Answer("Введите адрес.", CancelKb)
  const MissingData: Reply := Answer("Ошибка: отсутствуют данные. Попробуйте начать заново.", MenuKb)
  const TicketCreated: Reply := Answer("Спасибо! Ваш заказ создан.", MenuKb)
  const DeliveryFailed: Reply := Answer("Ошибка при отправке тикета администратору.", MenuKb)

  /** The prompt for the address, naming the chosen carrier. */
  function AddressPrompt(carrier: string): Reply {
    Answer("Введите адрес отделения " + carrier + ":", RemoveKb)
  }

  /** The caption of the photo sent to the administrator. */
  function TicketCaption(name: string, phone: string, carrier: string, address: string): string {
    "Новый тикет:\nИмя: " + name + "\nТелефон: " + phone + "\nДоставка: " + carrier
      + "\nАдрес: " + address
  }

  /** The calculator's final messages: the duty, when owed, then the total. */
  function QuoteReplies(a: Assessment): (rs: seq<Reply>)
    ensures |rs| == (if a.duty.Some? then 2 else 1)
    ensures rs[|rs| - 1] == TotalShown(a.total, MenuKb)
    ensures a.duty.Some? ==> rs[0] == DutyShown(a.duty.value, NoKeyboard)
  {
    (if a.duty.Some? then [DutyShown(a.duty.value, NoKeyboard)] else []) + [TotalShown(a.total, MenuKb)]
  }

  /** The session invariant: what each state guarantees about the data.
      A state is entered only from the step before it, which stored its key;
      only `clear()` returns to `Idle`, and it empties the data. */
  predicate Consistent(st: Step, d: Data) {
    match st
    case Idle => d == map[]
    case AwaitingPrice => true
    case AwaitingWeight => PriceRubKey in d
    case AwaitingCalcMethod => PriceRubKey in d && ShippingCostKey in d
    case AwaitingInsurance => PriceRubKey in d && ShippingCostKey in d && TotalKey in d
    case AwaitingPhoto => true
    case AwaitingName => PhotoKey in d
    case AwaitingPhone => PhotoKey in d && NameKey in d
    case AwaitingTicketMethod => PhotoKey in d && NameKey in d && PhoneKey in d
    case AwaitingAddress => PhotoKey in d && NameKey in d && PhoneKey in d && MethodKey in d
  }

  /** "Отмена" is not a number, so the price and weight steps could not
      confuse it with input even without their explicit check. */
  lemma CancelIsNotANumber()
    ensures ParseFloat(CancelText) == None
  {
    NotNumber(CancelText);
  }

  /** At the address step the invariant supplies the four earlier fields,
      and the step itself adds the address: the completion check passes. */
  lemma AddressStepHasRequiredFields(d: Data, address: string)
    requires Consistent(AwaitingAddress, d)
    ensures RequiredFields <= d[AddressKey := Str(address)].Keys
  {
  }

  /** One user's FSM context. */
  class Session {
    var state: Step
    var data: Data

    ghost predicate Valid()
      reads this
    {
      Consistent(state, data)
    }

    /** A user the storage has not seen: no state, no data. */
    constructor ()
      ensures state == Idle && data == map[]
      ensures Valid()
    {
      state := Idle;
      data := map[];
    }

    /** `state.clear()`: no state and empty data. */
    method Clear()
      modifies this
      ensures state == Idle && data == map[]
      ensures Valid()
    {
      state := Idle;
      data := map[];
    }

    /** `state.update_data(key=value)`. */
    method UpdateData(key: Key, v: Value)
      requires v.Num? <==> key in NumericKeys
      modifies this
      ensures state == old(state) && data == old(data)[key := v]
    {
      data := data[key := v];
    }

    /** "Калькулятор доставки" (bot.py:80-83): enter the price step; the data
        is kept as it is. */
    method StartCalc() returns (out: Outcome)
      modifies this
      ensures state == AwaitingPrice && data == old(data)
      ensures out == Replied([PricePrompt])
      ensures old(Valid()) ==> Valid()
    {
      out := Replied([PricePrompt]);
      state := AwaitingPrice;
    }

    /** The price step (bot.py:85-99): a number is converted to roubles at
        the yuan rate and stored under `price_rub`. */
    method GetPrice(ev: Event, yuanQuote: Option<real>) returns (out: Outcome)
      requires state == AwaitingPrice
      modifies this
      ensures IsCancel(ev) ==> state == Idle && data == map[] && out == Replied([CancelAck])
      ensures !ev.TextMsg? ==> unchanged(this) && out == Raised
      ensures ev.TextMsg? && !IsCancel(ev) && ParseFloat(ev.text).None? ==>
        unchanged(this) && out == Replied([PriceRetry])
      ensures ev.TextMsg? && !IsCancel(ev) && ParseFloat(ev.text).Some? ==>
        && state == AwaitingWeight
        && data == old(data)[PriceRubKey := Num(PriceRub(ParseFloat(ev.text).value, YuanRate(yuanQuote)))]
        && out == Replied([YuanRateShown(YuanRate(yuanQuote), CancelKb)])
      ensures old(Valid()) ==> Valid()
    {
      if IsCancel(ev) {
        Clear();
        return Replied([CancelAck]);
      }
      if !ev.TextMsg? {
        // float(None) raises TypeError, which the handler does not catch
        return Raised;
      }
      match ParseFloat(ev.text)
      case None =>
        out := Replied([PriceRetry]);
      case Some(price) =>
        var yuan := YuanRate(yuanQuote);
        UpdateData(PriceRubKey, Num(PriceRub(price, yuan)));
        out := Replied([YuanRateShown(yuan, CancelKb)]);
        state := AwaitingWeight;
    }

    /** The weight step (bot.py:101-118): a number is priced at 640 roubles
        per kilogram and stored under `shipping_cost`. */
    method GetWeight(ev: Event) returns (out: Outcome)
      requires state == AwaitingWeight
      modifies this
      ensures IsCancel(ev) ==> state == Idle && data == map[] && out == Replied([CancelAck])
      ensures !ev.TextMsg? ==> unchanged(this) && out == Raised
      ensures ev.TextMsg? && !IsCancel(ev) && ParseFloat(ev.text).None? ==>
        unchanged(this) && out == Replied([WeightRetry])
      ensures ev.TextMsg? && !IsCancel(ev) && ParseFloat(ev.text).Some? ==>
        && state == AwaitingCalcMethod
        && data == old(data)[ShippingCostKey := Num(ShippingCost(ParseFloat(ev.text).value))]
        && out == Replied([CalcMethodPrompt])
      ensures old(Valid()) ==> Valid()
    {
      if IsCancel(ev) {
        Clear();
        return Replied([CancelAck]);
      }
      if !ev.TextMsg? {
        return Raised;
      }
      match ParseFloat(ev.text)
      case None =>
        out := Replied([WeightRetry]);
      case Some(weight) =>
        UpdateData(ShippingCostKey, Num(ShippingCost(weight)));
        out := Replied([CalcMethodPrompt]);
        state := AwaitingCalcMethod;
    }

    /** The calculator's carrier step (bot.py:120-141): the exact text of a
        carrier; the surcharged total is stored under `total`. A missing
        `price_rub` or `shipping_cost` raises `KeyError`. */
    method GetMethod(ev: Event) returns (out: Outcome)
      requires state == AwaitingCalcMethod
      modifies this
      ensures IsCancel(ev) ==> state == Idle && data == map[] && out == Replied([CancelAck])
      ensures !IsCancel(ev) && !(ev.TextMsg? && IsCarrier(ev.text)) ==>
        unchanged(this) && out == Replied([CarrierRetry])
      ensures ev.TextMsg? && IsCarrier(ev.text) && !(PriceRubKey in old(data) && ShippingCostKey in old(data)) ==>
        unchanged(this) && out == Raised
      ensures ev.TextMsg? && IsCarrier(ev.text) && PriceRubKey in old(data) && ShippingCostKey in old(data) ==>
        && state == AwaitingInsurance
        && data == old(data)[TotalKey := Num(CarrierTotal(old(data)[PriceRubKey].x,
                                                          old(data)[ShippingCostKey].x, ev.text))]
        && out == Replied([InsurancePrompt])
      ensures old(Valid()) ==> Valid() && out != Raised
    {
      if IsCancel(ev) {
        Clear();
        return Replied([CancelAck]);
      }
      // a photo or contact has no text, and None is not one of the two carriers
      var carrier := TextOf(ev);
      if !(carrier == Some(Cdek) || carrier == Some(RussianPost)) {
        return Replied([CarrierRetry]);
      }
      if !(PriceRubKey in data && ShippingCostKey in data) {
        return Raised;
      }
      var total := CarrierTotal(data[PriceRubKey].x, data[ShippingCostKey].x, carrier.value);
      UpdateData(TotalKey, Num(total));
      out := Replied([InsurancePrompt]);
      state := AwaitingInsurance;
    }

    /** The insurance step (bot.py:143-168): "да" adds 100, "нет" adds
        nothing, in any letter case; then the duty is assessed against the
        euro rate, the result is shown and the session is cleared. The total
        is read before the answer is checked, so a missing `total` raises
        `KeyError` even for an invalid answer. */
    method GetInsurance(ev: Event, euroQuote: Option<real>) returns (out: Outcome)
      requires state == AwaitingInsurance
      modifies this
      ensures IsCancel(ev) ==> state == Idle && data == map[] && out == Replied([CancelAck])
      ensures !ev.TextMsg? ==> unchanged(this) && out == Raised
      ensures ev.TextMsg? && !IsCancel(ev) && TotalKey !in old(data) ==> unchanged(this) && out == Raised
      ensures ev.TextMsg? && !IsCancel(ev) && TotalKey in old(data) && InsuranceChoice(ev.text).None? ==>
        unchanged(this) && out == Replied([InsuranceRetry])
      ensures ev.TextMsg? && !IsCancel(ev) && TotalKey in old(data) && InsuranceChoice(ev.text).Some? ==>
        && state == Idle && data == map[]
        && out == Replied(QuoteReplies(ApplyDuty(Insured(old(data)[TotalKey].x, InsuranceChoice(ev.text).value),
                                                 EuroRate(euroQuote))))
      ensures old(Valid()) ==> Valid()
      ensures old(Valid()) && ev.TextMsg? ==> out != Raised
    {
      if IsCancel(ev) {
        Clear();
        return Replied([CancelAck]);
      }
      if !ev.TextMsg? {
        // None.lower() raises AttributeError
        return Raised;
      }
      var choice := InsuranceChoice(ev.text);
      if TotalKey !in data {
        return Raised;
      }
      var total := data[TotalKey].x;
      if choice.None? {
        return Replied([InsuranceRetry]);
      }
      total := Insured(total, choice.value);
      var euro := EuroRate(euroQuote);
      out := Replied(QuoteReplies(ApplyDuty(total, euro)));
      Clear();
    }

    /** "Создать тикет" (bot.py:178-181): enter the photo step; the data is
        kept as it is. */
    method TicketStart() returns (out: Outcome)
      modifies this
      ensures state == AwaitingPhoto && data == old(data)
      ensures out == Replied([PhotoPrompt])
      ensures old(Valid()) ==> Valid()
    {
      out := Replied([PhotoPrompt]);
      state := AwaitingPhoto;
    }

    /** A photo at the photo step (bot.py:183-197): the file id of the
        largest size is stored under `photo`. A photo message has no text,
        so the handler's "Отмена" check cannot fire and is not repeated
        here; an empty list of sizes raises `IndexError`, which the handler
        catches. */
    method TicketPhoto(ev: Event) returns (out: Outcome)
      requires state == AwaitingPhoto && ev.Photo?
      modifies this
      ensures ev.sizes == [] ==> unchanged(this) && out == Replied([PhotoError])
      ensures ev.sizes != [] ==>
        && state == AwaitingName
        && data == old(data)[PhotoKey := Str(ev.sizes[|ev.sizes| - 1])]
        && out == Replied([NamePrompt])
      ensures old(Valid()) ==> Valid()
    {
      if ev.sizes == [] {
        return Replied([PhotoError]);
      }
      UpdateData(PhotoKey, Str(ev.sizes[|ev.sizes| - 1]));
      out := Replied([NamePrompt]);
      state := AwaitingName;
    }

    /** Anything but a photo at the photo step (bot.py:199-204). This handler
        does not receive the FSM context: "Отмена" is acknowledged but the
        session stays at the photo step with its data; anything else asks
        for a photo again. */
    method TicketPhotoInvalid(ev: Event) returns (out: Outcome)
      requires state == AwaitingPhoto && !ev.Photo?
      ensures out == Replied([if IsCancel(ev) then CancelAck else PhotoRetry])
    {
      if IsCancel(ev) {
        return Replied([CancelAck]);
      }
      out := Replied([PhotoRetry]);
    }

    /** The name step (bot.py:206-223): at least two words; the stripped
        text is stored under `name`. */
    method TicketName(ev: Event) returns (out: Outcome)
      requires state == AwaitingName
      modifies this
      ensures IsCancel(ev) ==> state == Idle && data == map[] && out == Replied([CancelAck])
      ensures !ev.TextMsg? ==> unchanged(this) && out == Raised
      ensures ev.TextMsg? && !IsCancel(ev) && !NameAccepted(ev.text) ==>
        unchanged(this) && out == Replied([NameRetry])
      ensures ev.TextMsg? && !IsCancel(ev) && NameAccepted(ev.text) ==>
        && state == AwaitingPhone
        && data == old(data)[NameKey := Str(Strip(ev.text))]
        && out == Replied([PhonePrompt])
      ensures old(Valid()) ==> Valid()
    {
      if IsCancel(ev) {
        Clear();
        return Replied([CancelAck]);
      }
      if !ev.TextMsg? {
        // None.strip() raises AttributeError
        return Raised;
      }
      var name := Strip(ev.text);
      if |Words(name)| < 2 {
        return Replied([NameRetry]);
      }
      UpdateData(NameKey, Str(name));
      out := Replied([PhonePrompt]);
      state := AwaitingPhone;
    }

    /** `ask_delivery_method` (bot.py:250-256). */
    method AskDeliveryMethod() returns (out: Outcome)
      modifies this
      ensures state == AwaitingTicketMethod && data == old(data)
      ensures out == Replied([TicketMethodPrompt])
    {
      out := Replied([TicketMethodPrompt]);
      state := AwaitingTicketMethod;
    }

    /** A shared contact at the phone step (bot.py:225-234): always accepted,
        its number stored as it is. A contact message has no text, so the
        "Отмена" check cannot fire. */
    method TicketPhoneContact(ev: Event) returns (out: Outcome)
      requires state == AwaitingPhone && ev.Contact?
      modifies this
      ensures state == AwaitingTicketMethod
      ensures data == old(data)[PhoneKey := Str(ev.phone)]
      ensures out == Replied([TicketMethodPrompt])
      ensures old(Valid()) ==> Valid()
    {
      UpdateData(PhoneKey, Str(ev.phone));
      out := AskDeliveryMethod();
    }

    /** Anything but a contact at the phone step (bot.py:236-248): a typed
        number of at least six characters once stripped. */
    method TicketPhoneText(ev: Event) returns (out: Outcome)
      requires state == AwaitingPhone && !ev.Contact?
      modifies this
      ensures IsCancel(ev) ==> state == Idle && data == map[] && out == Replied([CancelAck])
      ensures !ev.TextMsg? ==> unchanged(this) && out == Raised
      ensures ev.TextMsg? && !IsCancel(ev) && !PhoneAccepted(ev.text) ==>
        unchanged(this) && out == Replied([PhoneRetry])
      ensures ev.TextMsg? && !IsCancel(ev) && PhoneAccepted(ev.text) ==>
        && state == AwaitingTicketMethod
        && data == old(data)[PhoneKey := Str(Strip(ev.text))]
        && out == Replied([TicketMethodPrompt])
      ensures old(Valid()) ==> Valid()
    {
      if IsCancel(ev) {
        Clear();
        return Replied([CancelAck]);
      }
      if !ev.TextMsg? {
        return Raised;
      }
      var phone := Strip(ev.text);
      if |phone| < 6 {
        return Replied([PhoneRetry]);
      }
      UpdateData(PhoneKey, Str(phone));
      out := AskDeliveryMethod();
    }

    /** The ticket's carrier step (bot.py:258-271): a carrier once stripped,
        stored under `method`. */
    method TicketMethod(ev: Event) returns (out: Outcome)
      requires state == AwaitingTicketMethod
      modifies this
      ensures IsCancel(ev) ==> state == Idle && data == map[] && out == Replied([CancelAck])
      ensures !ev.TextMsg? ==> unchanged(this) && out == Raised
      ensures ev.TextMsg? && !IsCancel(ev) && !TicketCarrierAccepted(ev.text) ==>
        unchanged(this) && out == Replied([CarrierRetry])
      ensures ev.TextMsg? && !IsCancel(ev) && TicketCarrierAccepted(ev.text) ==>
        && state == AwaitingAddress
        && data == old(data)[MethodKey := Str(Strip(ev.text))]
        && out == Replied([AddressPrompt(Strip(ev.text))])
      ensures old(Valid()) ==> Valid()
    {
      if IsCancel(ev) {
        Clear();
        return Replied([CancelAck]);
      }
      if !ev.TextMsg? {
        return Raised;
      }
      var carrier := Strip(ev.text);
      if !IsCarrier(carrier) {
        return Replied([CarrierRetry]);
      }
      UpdateData(MethodKey, Str(carrier));
      out := Replied([AddressPrompt(carrier)]);
      state := AwaitingAddress;
    }

    /** The address step (bot.py:273-307): a non-empty stripped address
        completes the ticket. The photo and caption are sent to the
        administrator (`delivered` says whether that succeeded); either way
        the user is answered and the session is cleared. If a required field
        were missing the user would be told to start again. */
    method TicketAddress(ev: Event, delivered: bool) returns (out: Outcome)
      requires state == AwaitingAddress
      modifies this
      ensures IsCancel(ev) ==> state == Idle && data == map[] && out == Replied([CancelAck])
      ensures !ev.TextMsg? ==> unchanged(this) && out == Raised
      ensures ev.TextMsg? && !IsCancel(ev) && !AddressAccepted(ev.text) ==>
        unchanged(this) && out == Replied([AddressRetry])
      ensures ev.TextMsg? && !IsCancel(ev) && AddressAccepted(ev.text) ==> state == Idle && data == map[]
      ensures ev.TextMsg? && !IsCancel(ev) && AddressAccepted(ev.text)
              && !(PhotoKey in old(data) && NameKey in old(data) && PhoneKey in old(data) && MethodKey in old(data)) ==>
        out == Replied([MissingData])
      ensures ev.TextMsg? && !IsCancel(ev) && AddressAccepted(ev.text)
              && PhotoKey in old(data) && NameKey in old(data) && PhoneKey in old(data) && MethodKey in old(data) ==>
        out == Replied([
          AdminPhoto(AdminId, old(data)[PhotoKey].s,
                     TicketCaption(old(data)[NameKey].s, old(data)[PhoneKey].s, old(data)[MethodKey].s, Strip(ev.text))),
          if delivered then TicketCreated else DeliveryFailed])
      ensures old(Valid()) ==> Valid()
      ensures old(Valid()) ==> out != Replied([MissingData]) && (ev.TextMsg? ==> out != Raised)
    {
      if IsCancel(ev) {
        Clear();
        return Replied([CancelAck]);
      }
      if !ev.TextMsg? {
        return Raised;
      }
      var address := Strip(ev.text);
      if address == [] {
        return Replied([AddressRetry]);
      }
      UpdateData(AddressKey, Str(address));
      if !(RequiredFields <= data.Keys) {
        out := Replied([MissingData]);
        Clear();
        return;
      }
      var caption := TicketCaption(data[NameKey].s, data[PhoneKey].s, data[MethodKey].s, data[AddressKey].s);
      var sent := AdminPhoto(AdminId, data[PhotoKey].s, caption);
      out := Replied([sent, if delivered then TicketCreated else DeliveryFailed]);
      Clear();
    }
  }
}
