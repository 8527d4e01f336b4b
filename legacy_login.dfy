/** The older typed-number login screen: a phone box and a Login button
    that opens the bank popup for a ten-character number. */
module LegacyLogin {
  import opened Text

  class LoginForm {
    var phone: string
    var showPopup: bool

    constructor ()
      ensures phone == "" && !PopupVisible()
    {
      phone, showPopup := "", false;
    }

    /** The popup is rendered exactly while its flag is set. */
    predicate PopupVisible()
      reads this
    {
      showPopup
    }

    /** The phone box: `maxLength={10}` keeps the first ten characters of
        what is typed, and `setPhone` stores them unchecked. */
    method TypePhone(text: string)
      modifies this
      ensures phone == KeepAtMost(text, 10)
      ensures |phone| <= 10
      ensures showPopup == old(showPopup)
    {
      phone := KeepAtMost(text, 10);
    }

    /** `handleLogin`: a ten-character phone opens the popup; any other
        length changes nothing. The phone itself is never touched. */
    method HandleLogin()
      modifies this
      ensures phone == old(phone)
      ensures |phone| == 10 ==> PopupVisible()
      ensures |phone| != 10 ==> showPopup == old(showPopup)
    {
      if |phone| == 10 {
        showPopup := true;
      }
    }

    /** The popup's `onClose`. */
    method ClosePopup()
      modifies this
      ensures !PopupVisible() && phone == old(phone)
    {
      showPopup := false;
    }
  }

  /** From a fresh screen, Login opens the popup exactly when the typed
      text has at least ten characters. */
  method LoginAfterTyping(text: string) returns (shown: bool)
    ensures shown <==> |text| >= 10
  {
    var form := new LoginForm();
    form.TypePhone(text);
    form.HandleLogin();
    shown := form.PopupVisible();
  }
}
