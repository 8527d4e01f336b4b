/** The sign-up screen: three text fields, the chosen bank and its account
    record, the bank popup flag, and the validation chain run by the Sign
    Up button. */
module SignUpForm {
  import opened Text
  import opened Navigation

  /** A bank offered by the popup; its icon is left out. */
  datatype Bank = Bank(id: int, bankname: string)

  /** The `bankAccount` record stored in the form (`Id`, `bankname`,
      `accountNumber`). */
  datatype BankAccount = BankAccount(id: int, bankname: string, accountNumber: string)

  /** The text fields `handleInputChange` is called with. */
  datatype Field = Username | Email | Phone

  /** `Alert.alert(title, message, buttons)`: `onOk` is where the OK button
      navigates, if it navigates at all. */
  datatype Alert = Alert(title: string, message: string, onOk: Option<Nav>)

  const FillAllText: string := "Please fill all fields"
  const PhoneLengthText: string := "Phone number must be exactly 10 digits"
  const SelectBankText: string := "Please select a bank"
  const SubmittedText: string := "Sign up submitted successfully"

  /** What the phone field may hold once every edit went through the phone
      handler. */
  ghost predicate PhoneShape(p: string) {
    AllDigits(p) && |p| <= 10
  }

  /** The phone field after `handlePhoneChange(text)` when it held
      `current`: the digits of `text` when there are at most ten of them,
      otherwise the old value. Whatever is typed, a well-formed field stays
      well-formed, and a short enough input is taken as its digits. */
  function PhoneInput(current: string, text: string): (r: string)
    ensures PhoneShape(current) ==> PhoneShape(r)
    ensures |Digits(text)| <= 10 ==> PhoneShape(r)
    ensures r == current || r == Digits(text)
  {
    DigitsAreDigits(text);
    var onlyNumbers := Digits(text);
    if |onlyNumbers| <= 10 then onlyNumbers else current
  }

  /** Feeding the field's own value back changes nothing, and a second
      identical edit repeats the first. */
  lemma PhoneInputIdempotent(current: string, text: string)
    requires PhoneShape(current)
    ensures PhoneInput(current, current) == current
    ensures PhoneInput(PhoneInput(current, text), text) == PhoneInput(current, text)
  {
    DigitsOfDigits(current);
  }

  /** Through a box that keeps ten characters the digit filter never meets
      more than ten digits, so the field always takes the digits of what the
      box holds; a paste whose first ten characters are digits gives exactly
      those ten. */
  lemma PhoneInputOfBox(current: string, text: string)
    ensures PhoneInput(current, KeepAtMost(text, 10)) == Digits(KeepAtMost(text, 10))
    ensures |text| >= 10 && AllDigits(text[..10]) ==>
      PhoneInput(current, KeepAtMost(text, 10)) == text[..10]
  {
    if |text| >= 10 && AllDigits(text[..10]) {
      assert KeepAtMost(text, 10) == text[..10];
      DigitsOfDigits(text[..10]);
    }
  }

  class SignUpScreen {
    var username: string
    var phone: string
    var email: string
    var bankAccount: Option<BankAccount>
    var selectedBank: Option<Bank>
    var showBankPopup: bool

    /** The phone field holds at most ten ASCII digits. */
    ghost predicate Valid()
      reads this
    {
      PhoneShape(phone)
    }

    /** The popup is on screen exactly while its flag is set. */
    predicate PopupVisible()
      reads this
    {
      showBankPopup
    }

    constructor ()
      ensures username == "" && phone == "" && email == ""
      ensures bankAccount == None && selectedBank == None && !showBankPopup
      ensures Valid()
    {
      username, phone, email := "", "", "";
      bankAccount, selectedBank, showBankPopup := None, None, false;
    }

    /** `handleInputChange`: the named field takes the value and every other
        part of the form keeps its own. Only the phone field can lose
        `Valid()` this way, which is why the phone box goes through
        `PhoneChange` instead. */
    method InputChange(field: Field, value: string)
      modifies this
      ensures username == (if field == Username then value else old(username))
      ensures email == (if field == Email then value else old(email))
      ensures phone == (if field == Phone then value else old(phone))
      ensures bankAccount == old(bankAccount) && selectedBank == old(selectedBank)
      ensures showBankPopup == old(showBankPopup)
      ensures field != Phone && old(Valid()) ==> Valid()
    {
      match field
      case Username => username := value;
      case Email => email := value;
      case Phone => phone := value;
    }

    /** The phone box (`maxLength={10}`) keeps the first ten characters
        typed, then `handlePhoneChange` strips the non-digits and stores the
        result only when it is at most ten long, which it then always is. */
    method PhoneChange(text: string)
      modifies this
      ensures phone == PhoneInput(old(phone), KeepAtMost(text, 10))
      ensures phone == Digits(KeepAtMost(text, 10))
      ensures username == old(username) && email == old(email)
      ensures bankAccount == old(bankAccount) && selectedBank == old(selectedBank)
      ensures showBankPopup == old(showBankPopup)
      ensures old(Valid()) ==> Valid()
    {
      var onlyNumbers := Digits(KeepAtMost(text, 10));
      if |onlyNumbers| <= 10 {
        InputChange(Phone, onlyNumbers);
      }
    }

    /** `handleSignUp`: the first failing check, in order, names the alert;
        only when all three pass does the alert's OK button lead to Login.
        Nothing in the form changes. */
    method SignUp() returns (a: Alert)
      ensures (a == Alert("Error", FillAllText, None))
        <==> (username == [] || email == [] || phone == [])
      ensures (a == Alert("Error", PhoneLengthText, None))
        <==> (username != [] && email != [] && phone != [] && |phone| != 10)
      ensures (a == Alert("Error", SelectBankText, None))
        <==> (username != [] && email != [] && |phone| == 10 && selectedBank.None?)
      ensures (a.onOk.Some?)
        <==> (username != [] && email != [] && |phone| == 10 && selectedBank.Some?)
      ensures a.onOk.Some? ==> a == Alert("Success", SubmittedText, Some(Navigate(Login, map[])))
      ensures a.onOk.Some? && Valid() ==> AllDigits(phone)
    {
      if username == [] || email == [] || phone == [] {
        return Alert("Error", FillAllText, None);
      }
      if |phone| != 10 {
        return Alert("Error", PhoneLengthText, None);
      }
      if selectedBank.None? {
        return Alert("Error", SelectBankText, None);
      }
      return Alert("Success", SubmittedText, Some(Navigate(Login, map[])));
    }

    /** `handleBankSelect`: remember the bank, build its account record with
        an empty account number, and close the popup. */
    method BankSelect(bank: Bank)
      modifies this
      ensures selectedBank == Some(bank)
      ensures bankAccount == Some(BankAccount(bank.id, bank.bankname, ""))
      ensures !PopupVisible()
      ensures username == old(username) && phone == old(phone) && email == old(email)
    {
      selectedBank := Some(bank);
      bankAccount := Some(BankAccount(bank.id, bank.bankname, ""));
      showBankPopup := false;
    }

    /** The `+` slot opens the popup. */
    method OpenBankPopup()
      modifies this
      ensures PopupVisible()
      ensures username == old(username) && phone == old(phone) && email == old(email)
      ensures bankAccount == old(bankAccount) && selectedBank == old(selectedBank)
    {
      showBankPopup := true;
    }

    /** The popup's `onClose` (backdrop tap or back button) hides it and
        selects nothing. */
    method CloseBankPopup()
      modifies this
      ensures !PopupVisible()
      ensures username == old(username) && phone == old(phone) && email == old(email)
      ensures bankAccount == old(bankAccount) && selectedBank == old(selectedBank)
    {
      showBankPopup := false;
    }
  }
}
