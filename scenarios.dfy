/**
  Whole conversations of one new user, message by message, each message
  passed to the handler the dispatcher routes it to. They show that the
  handlers compose: the calculator ends with the quote of the `Pricing`
  module, and the ticket ends with the administrator's photo and caption;
  both end with the session cleared.
 */
module Scenarios {
  import opened Wrappers
  import opened Text
  import opened Numbers
  import opened Validators
  import opened Pricing
  import opened Conversation
  import opened Routing

  /** No menu text is a number. */
  lemma MenuTextsAreNotNumbers(t: string)
    requires IsMenuText(TextMsg(t))
    ensures ParseFloat(t) == None
  {
    if t == StartCommand {
      NotNumber(StartCommand);
    } else if t == FaqButton {
      NotNumber(FaqButton);
    } else if t == AdminButton {
      NotNumber(AdminButton);
    } else if t == CalcButton {
      NotNumber(CalcButton);
    } else {
      NotNumber(TicketButton);
    }
  }

  /** An insurance answer has two or three characters, and a three-letter
      one starts with "н" or "Н". */
  lemma AnswersAreShort(t: string)
    requires InsuranceChoice(t).Some?
    ensures 2 <= |t| <= 3
    ensures |t| == 3 ==> LowerChar(t[0]) == 'н'
  {
    assert |Lower(t)| == |t|;
    if |t| == 3 {
      assert Lower(t) == "нет";
      assert Lower(t)[0] == LowerChar(t[0]);
    }
  }

  /** No menu text is an insurance answer. */
  lemma MenuTextsAreNotAnswers(t: string)
    requires IsMenuText(TextMsg(t))
    ensures InsuranceChoice(t) == None
  {
    if InsuranceChoice(t).Some? {
      AnswersAreShort(t);
    }
  }

  /** A number is neither "Отмена" nor a menu text: at the price and weight
      steps it reaches the step's handler and is taken as input. */
  lemma NumbersAreOrdinaryInput(t: string)
    requires ParseFloat(t).Some?
    ensures !IsCancel(TextMsg(t)) && !IsMenuText(TextMsg(t))
  {
    CancelIsNotANumber();
    if IsMenuText(TextMsg(t)) { MenuTextsAreNotNumbers(t); }
  }

  /** An insurance answer is neither "Отмена" nor a menu text. */
  lemma AnswersAreOrdinaryInput(t: string)
    requires InsuranceChoice(t).Some?
    ensures !IsCancel(TextMsg(t)) && !IsMenuText(TextMsg(t))
  {
    assert |Lower(CancelText)| == 6;
    if IsMenuText(TextMsg(t)) { MenuTextsAreNotAnswers(t); }
  }

  /** "Отмена" and the menu texts are not carriers at the ticket's carrier
      step, even though it strips its input. */
  lemma ReservedTextsAreNotTicketCarriers(t: string)
    requires t == CancelText || IsMenuText(TextMsg(t))
    ensures !TicketCarrierAccepted(t)
  {
    StripUnpadded(t);
  }

  /** A carrier the ticket step accepts is neither "Отмена" nor a menu text. */
  lemma TicketCarriersAreOrdinaryInput(t: string)
    requires TicketCarrierAccepted(t)
    ensures !IsCancel(TextMsg(t)) && !IsMenuText(TextMsg(t))
  {
    if IsCancel(TextMsg(t)) || IsMenuText(TextMsg(t)) {
      ReservedTextsAreNotTicketCarriers(t);
    }
  }

  /** The price and weight steps with numbers: the rouble price and the
      shipping cost are stored, and the session waits for the carrier. */
  method EnterAmounts(s: Session, priceText: string, weightText: string, yuanQuote: Option<real>)
    returns (outs: seq<Outcome>)
    requires s.Valid() && s.state == AwaitingPrice
    requires ParseFloat(priceText).Some? && ParseFloat(weightText).Some?
    modifies s
    ensures s.Valid() && s.state == AwaitingCalcMethod
    ensures s.data == old(s.data)[PriceRubKey := Num(PriceRub(ParseFloat(priceText).value, YuanRate(yuanQuote)))]
                                 [ShippingCostKey := Num(ShippingCost(ParseFloat(weightText).value))]
    ensures outs == [Replied([YuanRateShown(YuanRate(yuanQuote), CancelKb)]), Replied([CalcMethodPrompt])]
  {
    NumbersAreOrdinaryInput(priceText);
    NumbersAreOrdinaryInput(weightText);

    StepMessagesReachStepHandler(s.state, TextMsg(priceText));
    assert Route(s.state, TextMsg(priceText)) == Some(GetPrice);
    var o2 := s.GetPrice(TextMsg(priceText), yuanQuote);

    StepMessagesReachStepHandler(s.state, TextMsg(weightText));
    assert Route(s.state, TextMsg(weightText)) == Some(GetWeight);
    var o3 := s.GetWeight(TextMsg(weightText));

    outs := [o2, o3];
  }

  /** The carrier and insurance steps with valid input: the quote is
      computed from the stored rouble amounts, and the session is cleared. */
  method QuoteSteps(s: Session, carrier: string, answer: string, euroQuote: Option<real>)
    returns (outs: seq<Outcome>)
    requires s.Valid() && s.state == AwaitingCalcMethod
    requires IsCarrier(carrier) && InsuranceChoice(answer).Some?
    modifies s
    ensures s.state == Idle && s.data == map[]
    ensures outs == [
      Replied([InsurancePrompt]),
      Replied(QuoteReplies(ApplyDuty(Insured(CarrierTotal(old(s.data)[PriceRubKey].x, old(s.data)[ShippingCostKey].x,
                                                          carrier), InsuranceChoice(answer).value),
                                     EuroRate(euroQuote))))]
  {
    AnswersAreOrdinaryInput(answer);

    StepMessagesReachStepHandler(s.state, TextMsg(carrier));
    assert Route(s.state, TextMsg(carrier)) == Some(GetMethod);
    var o4 := s.GetMethod(TextMsg(carrier));

    StepMessagesReachStepHandler(s.state, TextMsg(answer));
    assert Route(s.state, TextMsg(answer)) == Some(GetInsurance);
    var o5 := s.GetInsurance(TextMsg(answer), euroQuote);

    outs := [o4, o5];
  }

  /** A new user opens the calculator and answers its four questions with
      valid input: the replies are the prompts, the yuan rate and then the
      quote, and the session ends cleared. */
  method CalculatorConversation(priceText: string, weightText: string, carrier: string, answer: string,
                                yuanQuote: Option<real>, euroQuote: Option<real>)
    returns (outs: seq<Outcome>, final: Step, finalData: Data)
    requires ParseFloat(priceText).Some? && ParseFloat(weightText).Some?
    requires IsCarrier(carrier) && InsuranceChoice(answer).Some?
    ensures outs == [
      Replied([PricePrompt]),
      Replied([YuanRateShown(YuanRate(yuanQuote), CancelKb)]),
      Replied([CalcMethodPrompt]),
      Replied([InsurancePrompt]),
      Replied(QuoteReplies(Quote(ParseFloat(priceText).value, yuanQuote, ParseFloat(weightText).value,
                                 carrier, InsuranceChoice(answer).value, euroQuote)))]
    ensures final == Idle && finalData == map[]
  {
    var s := new Session();

    MenuButtonsWinEverywhere(s.state);
    var started := s.StartCalc();

    var amounts := EnterAmounts(s, priceText, weightText, yuanQuote);
    var quoted := QuoteSteps(s, carrier, answer, euroQuote);

    outs := [started, amounts[0], amounts[1], quoted[0], quoted[1]];
    final, finalData := s.state, s.data;
  }

  /** The photo and name steps with valid input: the largest photo size and
      the stripped name are stored, and the session waits for the phone. */
  method SendPhotoAndName(s: Session, sizes: seq<string>, nameText: string) returns (outs: seq<Outcome>)
    requires s.Valid() && s.state == AwaitingPhoto
    requires sizes != []
    requires NameAccepted(nameText) && !IsCancel(TextMsg(nameText)) && !IsMenuText(TextMsg(nameText))
    modifies s
    ensures s.Valid() && s.state == AwaitingPhone
    ensures s.data == old(s.data)[PhotoKey := Str(sizes[|sizes| - 1])][NameKey := Str(Strip(nameText))]
    ensures outs == [Replied([NamePrompt]), Replied([PhonePrompt])]
  {
    StepMessagesReachStepHandler(s.state, Photo(sizes));
    assert Route(s.state, Photo(sizes)) == Some(TicketPhoto);
    var o2 := s.TicketPhoto(Photo(sizes));

    StepMessagesReachStepHandler(s.state, TextMsg(nameText));
    assert Route(s.state, TextMsg(nameText)) == Some(TicketName);
    var o3 := s.TicketName(TextMsg(nameText));

    outs := [o2, o3];
  }

  /** A new user opens a ticket, sends a photo and a valid name: the session
      waits for the phone with the largest photo size and the stripped name
      stored. */
  method OpenTicket(sizes: seq<string>, nameText: string) returns (s: Session, outs: seq<Outcome>)
    requires sizes != []
    requires NameAccepted(nameText) && !IsCancel(TextMsg(nameText)) && !IsMenuText(TextMsg(nameText))
    ensures fresh(s) && s.Valid()
    ensures s.state == AwaitingPhone
    ensures s.data == map[PhotoKey := Str(sizes[|sizes| - 1]), NameKey := Str(Strip(nameText))]
    ensures outs == [Replied([PhotoPrompt]), Replied([NamePrompt]), Replied([PhonePrompt])]
  {
    s := new Session();

    TicketButtonRouting(s.state);
    var started := s.TicketStart();

    var sent := SendPhotoAndName(s, sizes, nameText);

    outs := [started, sent[0], sent[1]];
  }

  /** The phone and carrier steps with valid input: the number and the
      stripped carrier are added to the data, and the session waits for the
      address. */
  method ChooseDelivery(s: Session, phone: Event, carrierText: string) returns (outs: seq<Outcome>)
    requires s.Valid() && s.state == AwaitingPhone
    requires phone.Contact? || (phone.TextMsg? && PhoneAccepted(phone.text) && !IsCancel(phone) && !IsMenuText(phone))
    requires TicketCarrierAccepted(carrierText)
    modifies s
    ensures s.Valid() && s.state == AwaitingAddress
    ensures s.data == old(s.data)[PhoneKey := Str(if phone.Contact? then phone.phone else Strip(phone.text))]
                                 [MethodKey := Str(Strip(carrierText))]
    ensures outs == [Replied([TicketMethodPrompt]), Replied([AddressPrompt(Strip(carrierText))])]
  {
    TicketCarriersAreOrdinaryInput(carrierText);
    StepMessagesReachStepHandler(s.state, phone);
    var o4;
    if phone.Contact? {
      assert Route(s.state, phone) == Some(TicketPhoneContact);
      o4 := s.TicketPhoneContact(phone);
    } else {
      assert Route(s.state, phone) == Some(TicketPhoneText);
      o4 := s.TicketPhoneText(phone);
    }

    StepMessagesReachStepHandler(s.state, TextMsg(carrierText));
    assert Route(s.state, TextMsg(carrierText)) == Some(TicketMethod);
    var o5 := s.TicketMethod(TextMsg(carrierText));

    outs := [o4, o5];
  }

  /** The phone, carrier and address steps with valid input: the ticket is
      sent with the stored photo and name, and the session is cleared. */
  method CompleteTicket(s: Session, phone: Event, carrierText: string, addressText: string, delivered: bool)
    returns (outs: seq<Outcome>)
    requires s.Valid() && s.state == AwaitingPhone
    requires phone.Contact? || (phone.TextMsg? && PhoneAccepted(phone.text) && !IsCancel(phone) && !IsMenuText(phone))
    requires TicketCarrierAccepted(carrierText)
    requires AddressAccepted(addressText) && !IsCancel(TextMsg(addressText)) && !IsMenuText(TextMsg(addressText))
    modifies s
    ensures s.state == Idle && s.data == map[]
    ensures outs == [
      Replied([TicketMethodPrompt]),
      Replied([AddressPrompt(Strip(carrierText))]),
      Replied([AdminPhoto(AdminId, old(s.data)[PhotoKey].s,
                          TicketCaption(old(s.data)[NameKey].s, if phone.Contact? then phone.phone else Strip(phone.text),
                                        Strip(carrierText), Strip(addressText))),
               if delivered then TicketCreated else DeliveryFailed])]
  {
    var chosen := ChooseDelivery(s, phone, carrierText);

    StepMessagesReachStepHandler(s.state, TextMsg(addressText));
    assert Route(s.state, TextMsg(addressText)) == Some(TicketAddress);
    var o6 := s.TicketAddress(TextMsg(addressText), delivered);

    outs := [chosen[0], chosen[1], o6];
  }

  /** A new user opens a ticket and answers its five questions with valid
      input (the phone shared as a contact or typed): the last reply sends
      the largest photo size and the collected answers to the administrator,
      and the session ends cleared whether or not that send succeeded. */
  method TicketConversation(sizes: seq<string>, nameText: string, phone: Event, carrierText: string,
                            addressText: string, delivered: bool)
    returns (outs: seq<Outcome>, final: Step, finalData: Data)
    requires sizes != []
    requires NameAccepted(nameText) && !IsCancel(TextMsg(nameText)) && !IsMenuText(TextMsg(nameText))
    requires phone.Contact? || (phone.TextMsg? && PhoneAccepted(phone.text) && !IsCancel(phone) && !IsMenuText(phone))
    requires TicketCarrierAccepted(carrierText)
    requires AddressAccepted(addressText) && !IsCancel(TextMsg(addressText)) && !IsMenuText(TextMsg(addressText))
    ensures outs == [
      Replied([PhotoPrompt]),
      Replied([NamePrompt]),
      Replied([PhonePrompt]),
      Replied([TicketMethodPrompt]),
      Replied([AddressPrompt(Strip(carrierText))]),
      Replied([AdminPhoto(AdminId, sizes[|sizes| - 1],
                          TicketCaption(Strip(nameText), if phone.Contact? then phone.phone else Strip(phone.text),
                                        Strip(carrierText), Strip(addressText))),
               if delivered then TicketCreated else DeliveryFailed])]
    ensures final == Idle && finalData == map[]
  {
    var s, begun := OpenTicket(sizes, nameText);
    var rest := CompleteTicket(s, phone, carrierText, addressText, delivered);

    outs := [begun[0], begun[1], begun[2], rest[0], rest[1], rest[2]];
    final, finalData := s.state, s.data;
  }

  /** "Отмена" at the photo step is acknowledged, but the user is still at
      the photo step afterwards: a photo sent next is taken as the ticket's
      photo. */
  method CancelAtPhotoStep(sizes: seq<string>)
    returns (outs: seq<Outcome>, final: Step, finalData: Data)
    requires sizes != []
    ensures outs == [Replied([PhotoPrompt]), Replied([CancelAck]), Replied([NamePrompt])]
    ensures final == AwaitingName && finalData == map[PhotoKey := Str(sizes[|sizes| - 1])]
  {
    var s := new Session();

    TicketButtonRouting(s.state);
    var started := s.TicketStart();

    CancelReachesStepHandler(s.state);
    var o2 := s.TicketPhotoInvalid(TextMsg(CancelText));

    StepMessagesReachStepHandler(s.state, Photo(sizes));
    var o3 := s.TicketPhoto(Photo(sizes));

    outs := [started, o2, o3];
    final, finalData := s.state, s.data;
  }

  /** "Отмена" at any other ticket step ends the ticket: the collected data
      is dropped. */
  method CancelAfterName(sizes: seq<string>, nameText: string)
    returns (outs: seq<Outcome>, final: Step, finalData: Data)
    requires sizes != []
    requires NameAccepted(nameText) && !IsCancel(TextMsg(nameText)) && !IsMenuText(TextMsg(nameText))
    ensures outs == [Replied([PhotoPrompt]), Replied([NamePrompt]), Replied([PhonePrompt]), Replied([CancelAck])]
    ensures final == Idle && finalData == map[]
  {
    var s, begun := OpenTicket(sizes, nameText);

    CancelReachesStepHandler(s.state);
    var o4 := s.TicketPhoneText(TextMsg(CancelText));

    outs := [begun[0], begun[1], begun[2], o4];
    final, finalData := s.state, s.data;
  }
}
