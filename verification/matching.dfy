/** Candidate matching: `matchingFn`, `getMatchingItems` and `setItems`. */
module Matching {
  import opened Wrappers
  import opened JsString
  import opened Candidates
  import opened Settings

  /** The default `matchingFn`. Reading `toString()` of a missing display field throws. */
  function DefaultMatch(displayBy: string, value: string, target: Record): (r: Completion<bool>)
    ensures r.TypeError? <==> displayBy !in target
    ensures r.Normal? ==>
      (r.value <==> target[displayBy] != "" && Contains(ToLowerCase(target[displayBy]), ToLowerCase(value)))
  {
    match Lookup(target, displayBy)
    case None => TypeError
    case Some(display) => Normal(display != "" && IndexOf(ToLowerCase(display), ToLowerCase(value)) >= 0)
  }

  /** An empty display value never matches, whatever the text. */
  lemma EmptyDisplayNeverMatches(displayBy: string, value: string, target: Record)
    requires Lookup(target, displayBy) == Some("")
    ensures DefaultMatch(displayBy, value, target) == Normal(false)
  {
  }

  /** The empty text matches every non-empty display value. */
  lemma EmptyTextMatchesAnyDisplay(displayBy: string, target: Record)
    requires displayBy in target && target[displayBy] != ""
    ensures DefaultMatch(displayBy, "", target) == Normal(true)
  {
    ContainsEmpty(ToLowerCase(target[displayBy]));
  }

  /** The default test ignores the case of the typed text. */
  lemma DefaultMatchIgnoresCase(displayBy: string, value: string, target: Record)
    ensures DefaultMatch(displayBy, ToLowerCase(value), target) == DefaultMatch(displayBy, value, target)
  {
    ToLowerCaseIdempotent(value);
  }

  /** Calls the configured `matchingFn` with the trimmed text and the candidate. */
  function Matches(cfg: Config, value: string, item: Record): (r: Completion<bool>)
    ensures cfg.matchingFn.CustomMatching? ==> r == cfg.matchingFn.pred(value, item)
    ensures cfg.matchingFn.DefaultMatching? ==> r == DefaultMatch(cfg.displayBy, value, item)
  {
    match cfg.matchingFn
    case DefaultMatching => DefaultMatch(cfg.displayBy, value, item)
    case CustomMatching(pred) => pred(value, item)
  }

  /** The identity of a selected tag: its `model` itself when a string, else the host's identity field. */
  function TagIdentity(hostIdentifyBy: string, tag: Candidate): Option<string> {
    match tag
    case Str(s) => Some(s)
    case Rec(fields) => Lookup(fields, hostIdentifyBy)
  }

  /** `this.tagInput.tags.some(...)`: some selected tag's identity is `===` the candidate's.
      Two missing identities (`undefined === undefined`) count as equal. */
  predicate IsSelected(cfg: Config, tags: seq<Candidate>, item: Record)
    ensures IsSelected(cfg, tags, item) <==>
      exists j :: 0 <= j < |tags| && TagIdentity(cfg.hostIdentifyBy, tags[j]) == Lookup(item, cfg.identifyBy)
  {
    tags != [] &&
    (TagIdentity(cfg.hostIdentifyBy, tags[0]) == Lookup(item, cfg.identifyBy) || IsSelected(cfg, tags[1..], item))
  }

  /** The filter's verdict on one candidate: it matches and is not already selected. */
  predicate Keep(cfg: Config, tags: seq<Candidate>, value: string, item: Record) {
    Matches(cfg, value, item) == Normal(true) && !IsSelected(cfg, tags, item)
  }

  /** `a` is an order-preserving subsequence of `b`. */
  predicate IsSubsequence<T(==)>(a: seq<T>, b: seq<T>) {
    if a == [] then true
    else if b == [] then false
    else (a[0] == b[0] && IsSubsequence(a[1..], b[1..])) || IsSubsequence(a, b[1..])
  }

  /** Every element of a subsequence is an element of the whole sequence. */
  lemma {:induction false} SubsequenceMembers<T>(a: seq<T>, b: seq<T>, x: T)
    requires IsSubsequence(a, b) && x in a
    ensures x in b
    decreases |b|
  {
    if a[0] == b[0] && IsSubsequence(a[1..], b[1..]) {
      if x != a[0] {
        SubsequenceMembers(a[1..], b[1..], x);
      }
    } else {
      SubsequenceMembers(a, b[1..], x);
    }
  }

  /** `pool.filter(...)` in `getMatchingItems`; it throws as soon as the matching test throws. */
  function FilterPool(cfg: Config, tags: seq<Candidate>, value: string, pool: seq<Record>): (r: Completion<seq<Record>>)
    ensures r.TypeError? <==> exists x :: x in pool && Matches(cfg, value, x).TypeError?
    ensures r.Normal? ==> IsSubsequence(r.value, pool)
    ensures r.Normal? ==> forall x :: x in r.value ==> Keep(cfg, tags, value, x)
    ensures r.Normal? ==> forall x :: x in pool && Keep(cfg, tags, value, x) ==> x in r.value
    ensures r.Normal? ==> forall x ::
      multiset(r.value)[x] == (if Keep(cfg, tags, value, x) then multiset(pool)[x] else 0)
  {
    if pool == [] then Normal([])
    else
      match Matches(cfg, value, pool[0])
      case TypeError => TypeError
      case Normal(ok) =>
        match FilterPool(cfg, tags, value, pool[1..])
        case TypeError => TypeError
        case Normal(rest) =>
          assert pool == [pool[0]] + pool[1..];
          if ok && !IsSelected(cfg, tags, pool[0]) then Normal([pool[0]] + rest) else Normal(rest)
  }

  /** `getMatchingItems(value)`, `value` being the trimmed input text. */
  function GetMatchingItems(cfg: Config, pool: Option<seq<Candidate>>, tags: seq<Candidate>, value: string)
    : (r: Completion<seq<Record>>)
    ensures value == "" && !cfg.showDropdownIfEmpty ==> r == Normal([])
    ensures r.Normal? ==> IsSubsequence(r.value, AutocompleteItems(cfg.displayBy, cfg.identifyBy, pool))
    ensures r.Normal? ==> forall x :: x in r.value ==> Keep(cfg, tags, value, x)
    ensures r.Normal? && (value != "" || cfg.showDropdownIfEmpty) ==>
      forall x :: x in AutocompleteItems(cfg.displayBy, cfg.identifyBy, pool) && Keep(cfg, tags, value, x) ==> x in r.value
    ensures r.Normal? && (value != "" || cfg.showDropdownIfEmpty) ==> forall x ::
      multiset(r.value)[x]
        == (if Keep(cfg, tags, value, x) then multiset(AutocompleteItems(cfg.displayBy, cfg.identifyBy, pool))[x] else 0)
    ensures r.TypeError? <==>
      && (value != "" || cfg.showDropdownIfEmpty)
      && exists x :: x in AutocompleteItems(cfg.displayBy, cfg.identifyBy, pool) && Matches(cfg, value, x).TypeError?
  {
    if value == "" && !cfg.showDropdownIfEmpty then Normal([])
    else FilterPool(cfg, tags, value, AutocompleteItems(cfg.displayBy, cfg.identifyBy, pool))
  }

  /** A selected candidate is never suggested, whatever `matchingFn` says. */
  lemma SelectedNeverSuggested(cfg: Config, pool: Option<seq<Candidate>>, tags: seq<Candidate>, value: string, x: Record)
    requires IsSelected(cfg, tags, x)
    requires GetMatchingItems(cfg, pool, tags, value).Normal?
    ensures x !in GetMatchingItems(cfg, pool, tags, value).value
  {
  }

  /** `items.slice(0, limitItemsTo || items.length)`: the shown prefix of the matches. */
  function SetItems(limitItemsTo: Option<nat>, items: seq<Record>): (r: seq<Record>)
    ensures |r| <= |items| && r == items[..|r|]
    ensures limitItemsTo.Some? && limitItemsTo.value > 0 && limitItemsTo.value < |items| ==> |r| == limitItemsTo.value
    ensures limitItemsTo.None? || limitItemsTo.value == 0 || limitItemsTo.value >= |items| ==> r == items
  {
    var end := if limitItemsTo.Some? && limitItemsTo.value != 0 then limitItemsTo.value else |items|;
    if end < |items| then items[..end] else items
  }

  /** Truncation keeps a non-empty list non-empty: judging availability before or after it agrees. */
  lemma SetItemsKeepsAvailability(limitItemsTo: Option<nat>, items: seq<Record>)
    ensures |SetItems(limitItemsTo, items)| > 0 <==> |items| > 0
  {
  }

  /** Truncating what was already truncated changes nothing. */
  lemma SetItemsIdempotent(limitItemsTo: Option<nat>, items: seq<Record>)
    ensures SetItems(limitItemsTo, SetItems(limitItemsTo, items)) == SetItems(limitItemsTo, items)
  {
  }
}
