/** The search boxes of the contact list and the transaction history:
    `query.trim().toLowerCase()` compared with `includes` against
    lower-cased fields. */
module Query {
  import opened Text

  /** The key a query is reduced to before matching. */
  function Key(query: string): string {
    ToLower(Trim(query))
  }

  /** Whether a field matches the key: `field.toLowerCase().includes(key)`. */
  predicate Hits(field: string, key: string) {
    Contains(ToLower(field), key)
  }

  /** The key is empty exactly when the query is blank. */
  lemma KeyBlank(query: string)
    ensures Key(query) == [] <==> AllSpace(query)
  {
    ToLowerAt(Trim(query));
    TrimEmptyIffAllSpace(query);
  }

  /** Whitespace typed around the query and the case it is typed in do not
      change the key. */
  lemma KeyIgnoresCaseAndPadding(pre: string, query: string, post: string)
    requires AllSpace(pre) && AllSpace(post)
    ensures Key(pre + query + post) == Key(query)
    ensures Key(ToLower(query)) == Key(query)
  {
    TrimIgnoresPadding(pre, query, post);
    TrimCommutesWithLower(query);
    ToLowerIdempotent(Trim(query));
  }

  /** Every field matches the empty key, so the empty-query shortcut of
      both screens returns what the filter would. */
  lemma HitsEmpty(field: string)
    ensures Hits(field, [])
  {
    assert OccursAt(ToLower(field), [], 0);
    ContainsIff(ToLower(field), [], 0);
  }
}
