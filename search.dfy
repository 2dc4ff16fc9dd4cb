// src/hooks/useSearch.ts: the stock search and the alert filter the pages run
// their lists through. Both hooks are generic in the record; the fields they
// read are passed as accessor functions.
module Search {
  import Text
  import Seqs
  import Models

  /** The search's match rule: the lower-cased term occurs in the lower-cased symbol or name. */
  function Matches<T>(term: string, symbol: T -> string, name: T -> string): T -> bool
  {
    (item: T) => Text.Includes(Text.ToLower(symbol(item)), Text.ToLower(term))
              || Text.Includes(Text.ToLower(name(item)), Text.ToLower(term))
  }

  /** useStockSearch: a blank term keeps the list; otherwise the matching items, in their order. */
  function StockSearch<T>(items: seq<T>, term: string, symbol: T -> string, name: T -> string): (r: seq<T>)
    ensures Text.IsBlank(term) ==> r == items
    ensures |r| <= |items|
  {
    if Text.IsBlank(term) then items else Seqs.Filter(items, Matches(term, symbol, name))
  }

  /** An item survives a non-blank search exactly when it is in the list and matches the untrimmed term. */
  lemma StockSearchMembers<T>(items: seq<T>, term: string, symbol: T -> string, name: T -> string, x: T)
    requires !Text.IsBlank(term)
    ensures x in StockSearch(items, term, symbol, name) <==> x in items && Matches(term, symbol, name)(x)
  {
    Seqs.FilterMembers(items, Matches(term, symbol, name), x);
  }

  /** The search never reorders or invents items. */
  lemma StockSearchKeepsOrder<T>(items: seq<T>, term: string, symbol: T -> string, name: T -> string)
    ensures Seqs.IsSubsequence(StockSearch(items, term, symbol, name), items)
  {
    if Text.IsBlank(term) {
      SubsequenceOfItself(items);
    } else {
      Seqs.FilterIsSubsequence(items, Matches(term, symbol, name));
    }
  }

  lemma {:induction false} SubsequenceOfItself<T>(s: seq<T>)
    ensures Seqs.IsSubsequence(s, s)
  {
    if s != [] {
      SubsequenceOfItself(s[1..]);
    }
  }

  /**
   * The term is not trimmed: a term typed with a leading space finds nothing
   * among symbols and names that hold no space, though the rest of it would.
   */
  lemma LeadingSpaceIsSearchedFor<T>(items: seq<T>, w: string, symbol: T -> string, name: T -> string)
    requires !Text.IsBlank(w)
    requires forall k :: 0 <= k < |items| ==> ' ' !in symbol(items[k]) && ' ' !in name(items[k])
    ensures StockSearch(items, " " + w, symbol, name) == []
  {
    var term := " " + w;
    assert !Text.IsBlank(term) by {
      var j :| 0 <= j < |w| && !Text.IsJsSpace(w[j]);
      assert term[j + 1] == w[j];
    }
    var t := Text.ToLower(term);
    assert t[0] == ' ';
    forall k | 0 <= k < |items| ensures !Matches(term, symbol, name)(items[k]) {
      NoSpaceNoOccurrence(symbol(items[k]), t);
      NoSpaceNoOccurrence(name(items[k]), t);
    }
    Seqs.FilterNone(items, Matches(term, symbol, name));
  }

  /** Lower-casing keeps a string free of spaces, so a term starting with one never occurs in it. */
  lemma NoSpaceNoOccurrence(s: string, t: string)
    requires ' ' !in s && |t| >= 1 && t[0] == ' '
    ensures !Text.Includes(Text.ToLower(s), t)
  {
    var l := Text.ToLower(s);
    forall i | 0 <= i <= |l| - |t| ensures l[i] != t[0] {
      assert s[i] != ' ';
    }
    NoOccurrence(l, t);
  }

  /** t cannot occur where s never shows t's first character early enough. */
  lemma NoOccurrence(s: string, t: string)
    requires |t| >= 1 && forall i :: 0 <= i <= |s| - |t| ==> s[i] != t[0]
    ensures !Text.Includes(s, t)
  {
    forall i | 0 <= i <= |s| - |t| ensures !Text.OccursAt(s, t, i) {
      assert s[i..i + |t|][0] == s[i];
    }
  }

  /** useAlertFilter: "all" keeps everything; otherwise the items whose status or kind equals the filter. */
  function Passes<T>(filter: string, status: T -> string, alertType: T -> string): T -> bool
  {
    (item: T) => status(item) == filter || alertType(item) == filter
  }

  function AlertFilter<T>(items: seq<T>, filter: string, status: T -> string, alertType: T -> string): (r: seq<T>)
    ensures filter == "all" ==> r == items
  {
    if filter == "all" then items else Seqs.Filter(items, Passes(filter, status, alertType))
  }

  lemma AlertFilterMembers<T>(items: seq<T>, filter: string, status: T -> string, alertType: T -> string, x: T)
    requires filter != "all"
    ensures x in AlertFilter(items, filter, status, alertType) <==>
      x in items && (status(x) == filter || alertType(x) == filter)
  {
    Seqs.FilterMembers(items, Passes(filter, status, alertType), x);
  }

  lemma AlertFilterKeepsOrder<T>(items: seq<T>, filter: string, status: T -> string, alertType: T -> string)
    ensures Seqs.IsSubsequence(AlertFilter(items, filter, status, alertType), items)
  {
    if filter == "all" {
      SubsequenceOfItself(items);
    } else {
      Seqs.FilterIsSubsequence(items, Passes(filter, status, alertType));
    }
  }

  /** The statuses alerts can carry, on the client and on the server. */
  predicate KnownStatus(s: string) { s in {"active", "inactive", "triggered", "paused", "deleted"} }

  /**
   * The dashboard offers "price_above" and "price_below" filters, but no alert
   * kind or status has those names, so over alerts of known kind and status
   * these filters always give an empty list.
   */
  lemma PriceDirectionFiltersMatchNothing<T>(items: seq<T>, filter: string, status: T -> string, alertType: T -> string)
    requires filter == "price_above" || filter == "price_below"
    requires forall i :: 0 <= i < |items| ==> KnownStatus(status(items[i])) && Models.ParseKind(alertType(items[i])).Some?
    ensures AlertFilter(items, filter, status, alertType) == []
  {
    forall i | 0 <= i < |items| ensures !Passes(filter, status, alertType)(items[i]) {
      var k := Models.ParseKind(alertType(items[i])).value;
      assert Models.KindName(k) == alertType(items[i]);
    }
    Seqs.FilterNone(items, Passes(filter, status, alertType));
  }
}
