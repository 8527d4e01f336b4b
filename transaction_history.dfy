/** The transaction history: the search filter over the stored transactions
    and how each row shows its amount colour, type label and initials. */
module TransactionHistory {
  import opened Text
  import opened Collections
  import opened Numbers
  import opened Ledger
  import opened Query

  /** A stored transaction as the history reads it. `sendto` may be absent
      (the initials code allows for that) and `kind` is the raw `type`
      text. */
  datatype Item = Item(
    id: int,
    username: string,
    sendto: Option<string>,
    amount: Number,
    kind: string,
    createdAt: string)

  const Green: string := "#2e7d32"
  const Red: string := "#c62828"

  /** `item.sendto || ''`. */
  function SendTo(t: Item): string {
    if t.sendto.Some? then t.sendto.value else ""
  }

  /** The filter's test as written: the username first and, only when that
      fails, `t.sendto.toLowerCase()`, which throws when `sendto` is
      absent (`None` here). */
  function MatchesAsWritten(t: Item, key: string): (r: Option<bool>)
    ensures r.None? <==> !Hits(t.username, key) && t.sendto.None?
    ensures r.Some? ==> r.value == (Hits(t.username, key) || Hits(SendTo(t), key))
  {
    if Hits(t.username, key) then Some(true)
    else if t.sendto.None? then None
    else Some(Hits(t.sendto.value, key))
  }

  /** `transactions.filter(...)` as written: it stops with the first item
      whose test throws. */
  function SelectAsWritten(items: seq<Item>, key: string): Option<seq<Item>>
  {
    if items == [] then Some([])
    else
      match MatchesAsWritten(items[0], key)
      case None => None
      case Some(b) =>
        match SelectAsWritten(items[1..], key)
        case None => None
        case Some(rest) => Some((if b then [items[0]] else []) + rest)
  }

  /** `filtered` as written: `None` stands for the screen failing with a
      `TypeError`. */
  function SearchAsWritten(items: seq<Item>, query: string): (r: Option<seq<Item>>)
    ensures r.None? ==> Key(query) != [] && exists i :: 0 <= i < |items| && Breaks(items[i], Key(query))
    ensures (forall i :: 0 <= i < |items| ==> items[i].sendto.Some?) ==> r.Some?
  {
    SelectAsWrittenIsFilter(items, Key(query));
    var key := Key(query);
    if key == [] then Some(items) else SelectAsWritten(items, key)
  }

  /** The test with an absent recipient read as empty, as the initials
      code reads it. */
  predicate Matches(t: Item, key: string) {
    Hits(t.username, key) || Hits(SendTo(t), key)
  }

  /** The history search with `sendto` guarded: the whole list for a blank
      query, otherwise the matching items in order. */
  function Search(items: seq<Item>, query: string): (r: seq<Item>)
    ensures |r| <= |items|
    ensures forall t :: t in r ==> t in items
  {
    var key := Key(query);
    if key == [] then items else Filter(items, (t: Item) => Matches(t, key))
  }

  /** An item on which the filter as written throws. */
  ghost predicate Breaks(t: Item, key: string) {
    !Hits(t.username, key) && t.sendto.None?
  }

  /** The filter as written fails exactly when some item breaks it, and
      otherwise returns what the guarded filter does. */
  lemma {:induction false} SelectAsWrittenIsFilter(items: seq<Item>, key: string)
    ensures SelectAsWritten(items, key).None? <==> exists i :: 0 <= i < |items| && Breaks(items[i], key)
    ensures SelectAsWritten(items, key).Some? ==>
      SelectAsWritten(items, key).value == Filter(items, (t: Item) => Matches(t, key))
  {
    if items != [] {
      SelectAsWrittenIsFilter(items[1..], key);
      if !Breaks(items[0], key) && SelectAsWritten(items[1..], key).Some? {
        assert forall i :: 1 <= i < |items| ==> items[i] == items[1..][i - 1];
      }
      if Breaks(items[0], key) {
        assert SelectAsWritten(items, key).None?;
      }
      if SelectAsWritten(items[1..], key).None? {
        var j :| 0 <= j < |items[1..]| && Breaks(items[1..][j], key);
        assert Breaks(items[j + 1], key);
      }
    }
  }

  /** Whenever the screen as written does not fail, it shows what `Search`
      shows; it fails exactly on a non-blank query with an item that has
      no recipient and whose username does not match. */
  lemma SearchAsWrittenAgrees(items: seq<Item>, query: string)
    ensures SearchAsWritten(items, query).Some? ==> SearchAsWritten(items, query).value == Search(items, query)
    ensures SearchAsWritten(items, query).None? <==>
      (!AllSpace(query) && exists i :: 0 <= i < |items| && Breaks(items[i], Key(query)))
  {
    KeyBlank(query);
    SelectAsWrittenIsFilter(items, Key(query));
  }

  /** A history holding one transaction without a recipient: any search that
      misses its username fails, where the guarded search shows nothing. */
  lemma MissingRecipientBreaksSearch()
    ensures SearchAsWritten([Item(1, "You", None, Finite(5.0), "sent", "")], "x").None?
    ensures Search([Item(1, "You", None, Finite(5.0), "sent", "")], "x") == []
  {
    var t := Item(1, "You", None, Finite(5.0), "sent", "");
    assert Key("x") == "x";
    assert ToLower("You") == "you";
    IndexOfFirst("you", "x");
    assert !OccursAt("you", "x", 0) && !OccursAt("you", "x", 1) && !OccursAt("you", "x", 2);
    assert !Hits("You", "x");
    assert Breaks(t, "x");
    SearchAsWrittenAgrees([t], "x");
    assert !Matches(t, "x") by {
      IndexOfFirst([], "x");
    }
    FilterMembership([t], (t: Item) => Matches(t, Key("x")), t);
  }

  /** A blank query shows every transaction. */
  lemma SearchBlank(items: seq<Item>, query: string)
    requires AllSpace(query)
    ensures Search(items, query) == items
  {
    KeyBlank(query);
  }

  /** A transaction is shown exactly when the query is blank or matches
      its lower-cased username or recipient. */
  lemma SearchMembership(items: seq<Item>, query: string, t: Item)
    ensures (t in Search(items, query))
      <==> (t in items && (AllSpace(query) || Matches(t, Key(query))))
  {
    KeyBlank(query);
    var key := Key(query);
    if key != [] {
      FilterMembership(items, (t: Item) => Matches(t, key), t);
    }
  }

  /** The shown transactions keep the stored order. */
  lemma SearchKeepsOrder(items: seq<Item>, query: string)
    ensures IsSubsequence(Search(items, query), items)
  {
    var key := Key(query);
    if key == [] {
      forall t: Item ensures Matches(t, key) {
        HitsEmpty(t.username);
      }
      FilterKeepsAll(items, (t: Item) => Matches(t, key));
    }
    FilterIsSubsequence(items, (t: Item) => Matches(t, key));
  }

  /** Surrounding whitespace and letter case in the query do not change
      what is shown. */
  lemma SearchIgnoresCaseAndPadding(items: seq<Item>, pre: string, query: string, post: string)
    requires AllSpace(pre) && AllSpace(post)
    ensures Search(items, pre + query + post) == Search(items, query)
    ensures Search(items, ToLower(query)) == Search(items, query)
  {
    KeyIgnoresCaseAndPadding(pre, query, post);
  }

  /** `amountColor`: green only for a received transaction. */
  function AmountColor(kind: string): (c: string)
    ensures c == Green || c == Red
    ensures (c == Green) <==> (kind == "received")
  {
    if kind == "received" then Green else Red
  }

  /** The type label: "Sent" only for a sent transaction. */
  function TypeLabel(kind: string): (shown: string)
    ensures shown == "Sent" || shown == "Received"
    ensures (shown == "Sent") <==> (kind == "sent")
  {
    if kind == "sent" then "Sent" else "Received"
  }

  /** The text stored for each kind. */
  function KindName(k: Kind): string {
    match k
    case Sent => "sent"
    case Received => "received"
  }

  /** A well-typed record is shown consistently: red and "Sent" when sent,
      green and "Received" when received. */
  lemma KindShownConsistently(k: Kind)
    ensures (AmountColor(KindName(k)) == Green) <==> (TypeLabel(KindName(k)) == "Received")
    ensures (TypeLabel(KindName(k)) == "Sent") <==> k == Sent
  {
  }

  /** A `type` that is neither value is labelled "Received" but coloured
      red like a sent one. */
  lemma OtherKindShownInconsistently(kind: string)
    requires kind != "sent" && kind != "received"
    ensures TypeLabel(kind) == "Received" && AmountColor(kind) == Red
  {
  }

  /** The avatar initials of a row come from the recipient. */
  function RowInitials(t: Item): (r: string)
    ensures |r| <= 2 && ' ' !in r
  {
    Initials(SendTo(t))
  }

  /** A row without a recipient shows no initials. */
  lemma NoRecipientNoInitials(t: Item)
    requires t.sendto.None?
    ensures RowInitials(t) == []
  {
    SplitNoSeparator([], ' ');
  }
}
