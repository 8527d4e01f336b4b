/** The payment screen: the amount box, the Send button and the list of
    transactions with one contact, which a valid amount extends by one
    sent transaction. */
module Payment {
  import opened Text
  import opened Numbers
  import opened Ledger
  import opened Navigation
  import opened Contacts

  const DefaultContactName: string := "Contact"
  const CurrentUserId: string := "current_user"
  const CurrentUserName: string := "You"
  const SuccessStatus: string := "success"

  /** The alert `handleSendAmount` raises: 'Invalid Amount', or 'Success'
      naming the amount and the contact. */
  datatype Notice = InvalidAmount | SentTo(amount: Number, contactName: string)

  /** `route?.params?.contactName || 'Contact'`: a missing or empty name
      falls back to the default, so the header is never blank. */
  function ContactName(params: Params): (r: string)
    ensures r != []
    ensures ("contactName" !in params || params["contactName"] == StrParam("")) ==> r == DefaultContactName
    ensures ("contactName" in params && params["contactName"].StrParam? && params["contactName"].s != []) ==>
      r == params["contactName"].s
  {
    if "contactName" in params && params["contactName"].StrParam? && params["contactName"].s != []
    then params["contactName"].s
    else DefaultContactName
  }

  /** `route?.params?.transactions || []`. */
  function InitialTransactions(params: Params): (r: seq<Transaction>)
    ensures "transactions" !in params ==> r == []
    ensures "transactions" in params && params["transactions"].ListParam? ==> r == params["transactions"].ts
  {
    if "transactions" in params && params["transactions"].ListParam?
    then params["transactions"].ts
    else []
  }

  /** The amount `handleSendAmount` accepts: the text parses (it is not
      `NaN`) to a number greater than zero. */
  function Amount(text: string): (r: Option<Number>)
    ensures r.Some? ==> ParseFloat(text) == r && IsPositive(r.value)
    ensures r.None? ==> ParseFloat(text).None? || !IsPositive(ParseFloat(text).value)
  {
    match ParseFloat(text)
    case None => None
    case Some(n) => if IsPositive(n) then Some(n) else None
  }

  /** `!amount || parseFloat(amount) <= 0`: empty text, or a number that
      is not positive. `NaN <= 0` is false, so text that is not a number
      leaves the button enabled. */
  function SendDisabled(text: string): (d: bool)
    ensures d ==> Amount(text).None?
  {
    assert TrimStart([]) == [];
    text == [] || (ParseFloat(text).Some? && !IsPositive(ParseFloat(text).value))
  }

  /** The button is enabled yet the amount refused exactly when the text is
      not empty and not a number: the handler's own check is what catches
      it. */
  lemma EnabledButRefused(text: string)
    ensures (!SendDisabled(text) && Amount(text).None?) <==> (text != [] && ParseFloat(text).None?)
  {
  }

  /** Letters are not a number: "abc" enables the button and is refused. */
  lemma LettersEnabledButRefused()
    ensures !SendDisabled("abc") && Amount("abc") == None
  {
    TrimStartOfNonSpace("abc");
    NotANumber("abc");
  }

  /** A whole number of rupees above zero is accepted as itself; zero is
      refused and disables the button. */
  lemma WholeAmounts(n: nat)
    ensures n > 0 ==> Amount(DecimalString(n)) == Some(Finite(n as real))
    ensures n == 0 ==> SendDisabled(DecimalString(n)) && Amount(DecimalString(n)) == None
  {
    ParseDecimalString(n);
  }

  /** The record a send adds to a list of `count` transactions. */
  function NewTransaction(count: nat, contactName: string, amount: Number, now: string): (r: Transaction)
    ensures r.id == count + 1 && r.id > count
    ensures r.userId == CurrentUserId && r.username == CurrentUserName
    ensures r.sendto == contactName && r.amount == amount && r.createdAt == now
    ensures r.status == SuccessStatus && r.kind == Sent
  {
    Transaction(count + 1, CurrentUserId, CurrentUserName, contactName, "", amount, SuccessStatus, Sent, now)
  }

  /** `[...transactions, newTransaction]`: exactly one transaction at the
      end, everything before it untouched, and the new one numbered after
      the old length, sent to the contact with the parsed amount. */
  function Appended(ts: seq<Transaction>, contactName: string, amount: Number, now: string): (r: seq<Transaction>)
    ensures |r| == |ts| + 1 && r[..|ts|] == ts
    ensures r[|ts|].id == |ts| + 1 && r[|ts|].sendto == contactName && r[|ts|].amount == amount
    ensures r[|ts|].status == SuccessStatus && r[|ts|].kind == Sent
  {
    ts + [NewTransaction(|ts|, contactName, amount, now)]
  }

  /** Transactions numbered 1, 2, 3, ... in list order. */
  ghost predicate NumberedInOrder(ts: seq<Transaction>) {
    forall i :: 0 <= i < |ts| ==> ts[i].id == i + 1
  }

  /** Sending keeps a list numbered in order, and then the new id is not
      used by any earlier transaction. */
  lemma AppendedKeepsNumbering(ts: seq<Transaction>, contactName: string, amount: Number, now: string)
    requires NumberedInOrder(ts)
    ensures NumberedInOrder(Appended(ts, contactName, amount, now))
    ensures forall i :: 0 <= i < |ts| ==> ts[i].id != |ts| + 1
  {
    var r := Appended(ts, contactName, amount, now);
    forall i | 0 <= i < |r| ensures r[i].id == i + 1 {
      if i < |ts| {
        assert r[i] == r[..|ts|][i];
      }
    }
  }

  /** When the list handed in is not numbered from 1, the new id can repeat
      an existing one. */
  lemma AppendedCanRepeatAnId(t: Transaction, amount: Number, now: string)
    requires t.id == 2
    ensures Appended([t], DefaultContactName, amount, now)[1].id == t.id
  {
  }

  /** A contact's avatar opens the payment screen with the mobile number
      only, so the screen shows the default name and no transactions. */
  lemma AvatarOpensBlankPayment(c: Contact)
    ensures ContactName(AvatarTap(c).params) == DefaultContactName
    ensures InitialTransactions(AvatarTap(c).params) == []
  {
    assert "contactName" != "mobile" && "transactions" != "mobile";
  }

  class PaymentScreen {
    var amount: string
    var transactions: seq<Transaction>
    const contactName: string

    /** The initial state from the route parameters. */
    constructor (params: Params)
      ensures amount == "" && transactions == InitialTransactions(params)
      ensures contactName == ContactName(params)
    {
      amount := "";
      transactions := InitialTransactions(params);
      contactName := ContactName(params);
    }

    /** `onChangeText={setAmount}`. */
    method SetAmount(text: string)
      modifies this
      ensures amount == text && transactions == old(transactions)
    {
      amount := text;
    }

    /** `handleSendAmount`, with `now` the creation time. An amount that is
        not a positive number changes nothing; a valid one appends one
        transaction and clears the box. */
    method SendAmount(now: string) returns (notice: Notice)
      modifies this
      ensures Amount(old(amount)).None? ==>
        notice == InvalidAmount && amount == old(amount) && transactions == old(transactions)
      ensures Amount(old(amount)).Some? ==>
        && notice == SentTo(Amount(old(amount)).value, contactName)
        && transactions == Appended(old(transactions), contactName, Amount(old(amount)).value, now)
        && amount == ""
    {
      var numAmount := ParseFloat(amount);
      if numAmount.None? || !IsPositive(numAmount.value) {
        return InvalidAmount;
      }
      var newTransaction := NewTransaction(|transactions|, contactName, numAmount.value, now);
      transactions := transactions + [newTransaction];
      amount := "";
      notice := SentTo(numAmount.value, contactName);
    }
  }
}
