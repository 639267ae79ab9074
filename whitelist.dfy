/**
 * The whitelist both middleware base classes keep: entries of a URL pattern
 * and a lower-case method (or `all`), and the scan that lets a request skip
 * the middleware. URL pattern matching itself is a parameter
 * (`urlMatch(pattern, path)`).
 */
module Whitelist {
  import opened Wrappers
  import opened Strings
  import opened Http

  /** `{ pattern: new UrlPattern(path), method: method || 'all' }` */
  datatype Entry = Entry(pattern: string, verb: string)

  type UrlMatch = (string, string) -> bool

  /** The entry `whitelist(path, method)` pushes. */
  function NewEntry(path: string, verb: Option<string>): (e: Entry)
    ensures e.pattern == path
    ensures verb.Some? && verb.value != "" ==> e.verb == verb.value
    ensures verb.None? || verb.value == "" ==> e.verb == "all"
  {
    Entry(path, OrElse(verb, "all"))
  }

  /** The pattern matches the lower-cased path, and the lower-cased request
      method is the entry's method or the entry allows every method. */
  predicate EntryMatches(urlMatch: UrlMatch, e: Entry, path: string, verb: string) {
    urlMatch(e.pattern, Lower(path)) && (Lower(verb) == e.verb || e.verb == "all")
  }

  /** The request has a (truthy) path and some entry matches it. */
  predicate Whitelisted(urlMatch: UrlMatch, entries: seq<Entry>, req: Request) {
    req.path.Some? && req.path.value != "" &&
    exists i :: 0 <= i < |entries| && EntryMatches(urlMatch, entries[i], req.path.value, req.verb)
  }

  /** The scan of the middleware handler: the first matching entry ends it. */
  method Scan(urlMatch: UrlMatch, entries: seq<Entry>, req: Request) returns (hit: bool)
    ensures hit == Whitelisted(urlMatch, entries, req)
  {
    hit := false;
    if req.path.Some? && req.path.value != "" {
      var path := req.path.value;
      var i := 0;
      while i < |entries|
        invariant 0 <= i <= |entries|
        invariant forall j :: 0 <= j < i ==> !EntryMatches(urlMatch, entries[j], path, req.verb)
      {
        var entry := entries[i];
        if urlMatch(entry.pattern, Lower(path)) && (Lower(req.verb) == entry.verb || entry.verb == "all") {
          hit := true;
          return;
        }
        i := i + 1;
      }
    }
  }

  /** An entry whose method holds an upper-case letter only ever matches
      through another entry: `whitelist('/x', 'GET')` never applies, because the
      request method is lowered before the comparison and the entry's is not. */
  lemma UpperCaseMethodNeverMatches(urlMatch: UrlMatch, e: Entry, path: string, verb: string)
    requires HasUpper(e.verb)
    ensures !EntryMatches(urlMatch, e, path, verb)
  {
    LowerNeverEqualsUpper(verb, e.verb);
    assert e.verb != "all" by {
      var i :| 0 <= i < |e.verb| && 'A' <= e.verb[i] <= 'Z';
      if |e.verb| == 3 {
        assert "all"[i] != e.verb[i];
      }
    }
  }

  /** An entry registered without a method matches every request method on its pattern. */
  lemma NoMethodMeansAll(urlMatch: UrlMatch, path: string, reqPath: string, verb: string)
    requires urlMatch(path, Lower(reqPath))
    ensures EntryMatches(urlMatch, NewEntry(path, None), reqPath, verb)
  {
  }

  /** Adding an entry never removes a bypass, and a matching entry adds one
      for every request with a path. */
  lemma WhitelistGrows(urlMatch: UrlMatch, entries: seq<Entry>, e: Entry, req: Request)
    ensures Whitelisted(urlMatch, entries, req) ==> Whitelisted(urlMatch, entries + [e], req)
    ensures req.path.Some? && req.path.value != "" && EntryMatches(urlMatch, e, req.path.value, req.verb) ==>
      Whitelisted(urlMatch, entries + [e], req)
  {
    var all := entries + [e];
    if Whitelisted(urlMatch, entries, req) {
      var i :| 0 <= i < |entries| && EntryMatches(urlMatch, entries[i], req.path.value, req.verb);
      assert all[i] == entries[i];
    }
    if req.path.Some? && req.path.value != "" && EntryMatches(urlMatch, e, req.path.value, req.verb) {
      assert all[|entries|] == e;
    }
  }

  /** A request without a path (or with an empty one) is never whitelisted. */
  lemma NoPathNoBypass(urlMatch: UrlMatch, entries: seq<Entry>, req: Request)
    requires req.path.None? || req.path.value == ""
    ensures !Whitelisted(urlMatch, entries, req)
  {
  }
}
