/**
  The input guards of the two flows: which texts each step accepts
  (bot.py:128, 150-156, 213-214, 243-244, 265-266, 280-281).
 */
module Validators {
  import opened Wrappers
  import opened Text

  const Cdek: string := "СДЭК"
  const RussianPost: string := "Почта РФ"

  /** One of the two carriers on the keyboard, compared exactly. */
  predicate IsCarrier(m: string) {
    m == Cdek || m == RussianPost
  }

  /** Ticket name step: the stripped text splits into at least two words. */
  predicate NameAccepted(text: string) {
    |Words(Strip(text))| >= 2
  }

  /** Ticket phone step, typed phone: at least six characters once stripped. */
  predicate PhoneAccepted(text: string) {
    |Strip(text)| >= 6
  }

  /** Ticket carrier step: a carrier once stripped. */
  predicate TicketCarrierAccepted(text: string) {
    IsCarrier(Strip(text))
  }

  /** Ticket address step: something is left once stripped. */
  predicate AddressAccepted(text: string) {
    Strip(text) != []
  }

  /** Calculator insurance step: `Some(true)` when the lower-cased answer is
      "да", `Some(false)` when it is "нет", `None` for anything else. */
  function InsuranceChoice(text: string): Option<bool> {
    var answer := Lower(text);
    if answer == "да" then Some(true)
    else if answer == "нет" then Some(false)
    else None
  }

  /** A name is accepted exactly when, after stripping, whitespace separates
      two non-whitespace characters. */
  lemma NameAcceptedIff(text: string)
    ensures NameAccepted(text) <==> HasInnerGap(Strip(text))
  {
    TwoWordsIff(Strip(text));
  }

  /** An address is accepted exactly when it holds a non-whitespace character. */
  lemma AddressAcceptedIff(text: string)
    ensures AddressAccepted(text) <==> exists k :: 0 <= k < |text| && !IsSpace(text[k])
  {
  }

  /** A typed phone is accepted exactly when its first and last
      non-whitespace characters are at least five positions apart. */
  lemma PhoneAcceptedIff(text: string)
    ensures PhoneAccepted(text) <==>
      exists i, j :: 0 <= i && i + 5 <= j < |text| && !IsSpace(text[i]) && !IsSpace(text[j])
  {
    StripSpec(text);
    var lead := LeadingSpaces(text);
    var r := Strip(text);
    if |r| >= 6 {
      assert r[0] == text[lead] && r[|r| - 1] == text[lead + |r| - 1];
    }
    if exists i, j :: 0 <= i && i + 5 <= j < |text| && !IsSpace(text[i]) && !IsSpace(text[j]) {
      var i, j :| 0 <= i && i + 5 <= j < |text| && !IsSpace(text[i]) && !IsSpace(text[j]);
      forall k | lead + |r| <= k < |text| ensures IsSpace(text[k]) {
        assert text[k] == text[lead + |r|..][k - lead - |r|];
      }
    }
  }

  /** The insurance answers, spelled out in every letter case. */
  lemma InsuranceChoiceIff(text: string)
    ensures InsuranceChoice(text) == Some(true) <==> text in {"да", "дА", "Да", "ДА"}
    ensures InsuranceChoice(text) == Some(false) <==>
      text in {"нет", "неТ", "нЕт", "нЕТ", "Нет", "НеТ", "НЕт", "НЕТ"}
  {
    LowerIsYes(text);
    LowerIsNo(text);
  }

  /** The ticket carrier step accepts every answer the calculator's exact
      comparison accepts, and also padded ones such as " СДЭК". */
  lemma TicketCarrierIsLenient(text: string)
    ensures IsCarrier(text) ==> TicketCarrierAccepted(text)
    ensures TicketCarrierAccepted(" " + Cdek) && !IsCarrier(" " + Cdek)
  {
    if IsCarrier(text) {
      StripUnpadded(text);
    }
    var padded := " " + Cdek;
    assert LeadingSpaces(padded[1..]) == 0;
    assert LeadingSpaces(padded) == 1;
    assert padded[1..] == Cdek;
    assert TrailingSpaces(Cdek) == 0;
  }
}
