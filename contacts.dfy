/** The contact list: the search filter over the contacts, the initials in
    each avatar and where tapping an avatar leads. */
module Contacts {
  import opened Text
  import opened Collections
  import opened Navigation
  import opened Query

  datatype Contact = Contact(id: int, name: string, mobilenumber: string)

  /** A contact matches a non-empty key through its name or its number. */
  predicate Matches(c: Contact, key: string) {
    Hits(c.name, key) || Hits(c.mobilenumber, key)
  }

  /** `filtered`: the whole list for a blank query, otherwise the matching
      contacts in list order. */
  function Search(contacts: seq<Contact>, query: string): (r: seq<Contact>)
    ensures |r| <= |contacts|
    ensures forall c :: c in r ==> c in contacts
  {
    var key := Key(query);
    if key == [] then contacts
    else Filter(contacts, (c: Contact) => Matches(c, key))
  }

  /** A blank query shows every contact. */
  lemma SearchBlank(contacts: seq<Contact>, query: string)
    requires AllSpace(query)
    ensures Search(contacts, query) == contacts
  {
    KeyBlank(query);
  }

  /** A contact is shown exactly when it is in the list and the query is
      blank or matches its lower-cased name or number. */
  lemma SearchMembership(contacts: seq<Contact>, query: string, c: Contact)
    ensures (c in Search(contacts, query))
      <==> (c in contacts && (AllSpace(query) || Matches(c, Key(query))))
  {
    KeyBlank(query);
    var key := Key(query);
    if key != [] {
      FilterMembership(contacts, (c: Contact) => Matches(c, key), c);
    }
  }

  /** The blank-query shortcut is the filter itself: the empty key matches
      every contact. */
  lemma SearchIsFilter(contacts: seq<Contact>, query: string)
    ensures Search(contacts, query) == Filter(contacts, (c: Contact) => Matches(c, Key(query)))
  {
    var key := Key(query);
    if key == [] {
      forall c: Contact ensures Matches(c, key) {
        HitsEmpty(c.name);
      }
      FilterKeepsAll(contacts, (c: Contact) => Matches(c, key));
    }
  }

  /** The shown contacts keep the order of the list. */
  lemma SearchKeepsOrder(contacts: seq<Contact>, query: string)
    ensures IsSubsequence(Search(contacts, query), contacts)
  {
    SearchIsFilter(contacts, query);
    FilterIsSubsequence(contacts, (c: Contact) => Matches(c, Key(query)));
  }

  /** Searching the result again with the same query changes nothing. */
  lemma SearchIdempotent(contacts: seq<Contact>, query: string)
    ensures Search(Search(contacts, query), query) == Search(contacts, query)
  {
    var keep := (c: Contact) => Matches(c, Key(query));
    SearchIsFilter(contacts, query);
    SearchIsFilter(Search(contacts, query), query);
    FilterThenFilter(contacts, keep, keep);
  }

  /** Surrounding whitespace and letter case in the query do not change
      what is shown. */
  lemma SearchIgnoresCaseAndPadding(contacts: seq<Contact>, pre: string, query: string, post: string)
    requires AllSpace(pre) && AllSpace(post)
    ensures Search(contacts, pre + query + post) == Search(contacts, query)
    ensures Search(contacts, ToLower(query)) == Search(contacts, query)
  {
    KeyIgnoresCaseAndPadding(pre, query, post);
  }

  /** Tapping the avatar opens the payment screen with the contact's
      number under `mobile` and nothing else. */
  function AvatarTap(c: Contact): (n: Nav)
    ensures n.Navigate? && n.screen == PaymentPage
    ensures n.params.Keys == {"mobile"} && n.params["mobile"] == StrParam(c.mobilenumber)
  {
    Navigate(PaymentPage, map["mobile" := StrParam(c.mobilenumber)])
  }
}
