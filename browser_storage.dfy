/** The browser's key-value storage medium (`window.localStorage`), reduced to a string map, two
    facts about the environment, and an oracle that decides how the medium answers each write. */
module BrowserStorage {
  import opened Wrappers

  /** How the medium answers one `setItem`: it stores the value, rejects it for lack of quota
      (a `DOMException` with the quota code), or throws anything else. */
  datatype WriteOutcome = Written | QuotaRejected | Refused

  /** Decides a `setItem` from the current contents, the key and the value. */
  type Verdict = (map<string, string>, string, string) -> WriteOutcome

  /** `getItem` on given contents. */
  function Lookup(items: map<string, string>, key: string): (r: Option<string>)
    ensures r.Some? <==> key in items
    ensures r.Some? ==> r.value == items[key]
  {
    if key in items then Some(items[key]) else None
  }

  /** `setItem` on given contents: the outcome, and the contents afterwards (unchanged when the
      write is not accepted). */
  function Store(verdict: Verdict, items: map<string, string>, key: string, value: string)
    : (r: (WriteOutcome, map<string, string>))
    ensures r.0 == verdict(items, key, value)
    ensures r.0 == Written ==> r.1 == items[key := value]
    ensures r.0 != Written ==> r.1 == items
  {
    var o := verdict(items, key, value);
    (o, if o == Written then items[key := value] else items)
  }

  class Storage {
    /** `typeof window !== "undefined"`: the code runs in a browser rather than on the server. */
    const hasWindow: bool
    /** A window exists and `localStorage` can be reached and written to (the probe write of
        the persistence module succeeds). */
    const available: bool
    const verdict: Verdict
    var items: map<string, string>

    ghost predicate Valid()
      reads this
    {
      available ==> hasWindow
    }

    constructor (hasWindow: bool, available: bool, verdict: Verdict, items: map<string, string>)
      requires available ==> hasWindow
      ensures Valid()
      ensures this.hasWindow == hasWindow && this.available == available
      ensures this.verdict == verdict && this.items == items
    {
      this.hasWindow := hasWindow;
      this.available := available;
      this.verdict := verdict;
      this.items := items;
    }

    function GetItem(key: string): (r: Option<string>)
      reads this
      ensures r == Lookup(items, key)
    {
      Lookup(items, key)
    }

    method SetItem(key: string, value: string) returns (o: WriteOutcome)
      modifies this
      ensures (o, items) == Store(verdict, old(items), key, value)
    {
      o := verdict(items, key, value);
      if o == Written {
        items := items[key := value];
      }
    }

    method RemoveItem(key: string)
      modifies this
      ensures items == old(items) - {key}
    {
      items := items - {key};
    }
  }
}
