/** Concrete runs of the controller on small inputs. */
module Scenarios {
  import opened Wrappers
  import opened JsString
  import opened Candidates
  import opened Settings
  import opened Matching
  import opened Dropdown
  import opened DropdownProperties

  function Paris(): Record {
    map["display" := "Paris", "value" := "PAR"]
  }

  function Closed(pool: seq<Candidate>): State {
    State(Some(pool), [], false, false)
  }

  /** A pool of one record yields that record exactly when the filter keeps it. */
  lemma SingleCandidate(cfg: Config, x: Record, tags: seq<Candidate>, value: string)
    requires value != "" || cfg.showDropdownIfEmpty
    requires Matches(cfg, value, x).Normal?
    ensures GetMatchingItems(cfg, Some([Rec(x)]), tags, value)
         == if Keep(cfg, tags, value, x) then Normal([x]) else Normal([])
  {
    assert AutocompleteItems(cfg.displayBy, cfg.identifyBy, Some([Rec(x)])) == [x];
    assert FilterPool(cfg, tags, value, []) == Normal([]);
  }

  lemma LowerParis()
    ensures ToLowerCase("Paris") == "paris"
  {
    assert "Paris"[1..] == "aris";
    ToLowerCaseNoUpper("aris");
    assert ToLowerCase("Paris") == [LowerChar('P')] + ToLowerCase("aris");
  }

  /** The default test finds "pa" and "par" in "Paris". */
  lemma ParisMatches(value: string)
    requires value == "pa" || value == "par"
    ensures DefaultMatch("display", value, Paris()) == Normal(true)
  {
    LowerParis();
    ToLowerCaseNoUpper(value);
    assert MatchesAt("paris", value, 0);
  }

  /** A keyup over a pool of one record: the record is shown exactly when the filter keeps it. */
  lemma KeyupOnOneCandidate(cfg: Config, st: State, host: Host, x: Record)
    requires st.pool == Some([Rec(x)]) && cfg.limitItemsTo.None?
    requires Trim(host.text) != "" || cfg.showDropdownIfEmpty
    requires Matches(cfg, Trim(host.text), x).Normal?
    ensures var r := Show(cfg, st, host);
      && !r.threw
      && r.state.items == (if Keep(cfg, host.tags, Trim(host.text), x) then [x] else [])
  {
    SingleCandidate(cfg, x, host.tags, Trim(host.text));
  }

  /** The facts the Paris scenarios share: "par" and "pa" are trimmed already and both match. */
  lemma ParisKeyup(cfg: Config, text: string)
    requires text == "pa" || text == "par"
    requires cfg.matchingFn.DefaultMatching? && cfg.displayBy == "display"
    ensures Trim(text) == text
    ensures Matches(cfg, text, Paris()) == Normal(true)
  {
    assert !IsTrimmable(text[0]) && !IsTrimmable(text[|text| - 1]);
    TrimNoEdgeSpace(text);
    ParisMatches(text);
  }

  /** Typing "par" against a pool holding Paris suggests Paris and opens the panel. */
  lemma ScenarioTypeMatchingText()
    ensures var r := Show(DefaultConfig(), Closed([Rec(Paris())]), Host("par", []));
      r.state.items == [Paris()] && r.commands == [OpenPanel]
  {
    var cfg := DefaultConfig();
    var st := Closed([Rec(Paris())]);
    var host := Host("par", []);
    ParisKeyup(cfg, "par");
    assert !IsSelected(cfg, [], Paris());
    assert Keep(cfg, [], "par", Paris());
    KeyupOnOneCandidate(cfg, st, host, Paris());
    var r := Show(cfg, st, host);
    assert r.state.items == [Paris()];
    assert CurrentMatches(cfg, st, host).value != [];
    assert WantsOpen(cfg, CurrentMatches(cfg, st, host).value, "par");
    assert OpenPanel in r.commands && |r.commands| <= 1;
  }

  /** Paris selected by its identity "PAR" leaves no match for "par". */
  lemma ParisSelectedNoMatch(cfg: Config, host: Host)
    requires cfg == DefaultConfig() && host == Host("par", [Rec(map["value" := "PAR"])])
    ensures CurrentMatches(cfg, Closed([Rec(Paris())]), host) == Normal([])
  {
    var tags := host.tags;
    ParisKeyup(cfg, "par");
    assert Lookup(Paris(), "value") == Some("PAR");
    assert TagIdentity("value", tags[0]) == Some("PAR");
    assert IsSelected(cfg, tags, Paris());
    assert !Keep(cfg, tags, "par", Paris());
    SingleCandidate(cfg, Paris(), tags, "par");
  }

  /** The same text finds nothing once Paris is selected, and the panel stays closed. */
  lemma ScenarioAlreadySelected()
    ensures var r := Show(DefaultConfig(), Closed([Rec(Paris())]), Host("par", [Rec(map["value" := "PAR"])]));
      r.state.items == [] && r.commands == []
  {
    var cfg := DefaultConfig();
    var st := Closed([Rec(Paris())]);
    var host := Host("par", [Rec(map["value" := "PAR"])]);
    ParisSelectedNoMatch(cfg, host);
    var r := Show(cfg, st, host);
    assert !r.threw && r.state.items == [];
    assert OpenPanel !in r.commands && ClosePanel !in r.commands && |r.commands| <= 1;
  }

  /** With `showDropdownIfEmpty`, an empty input opens the panel on every candidate. */
  lemma ScenarioShowIfEmpty()
    ensures var cfg := DefaultConfig().(showDropdownIfEmpty := true);
            var a := map["display" := "A", "value" := "A"];
            var r := Show(cfg, Closed([Rec(a)]), Host("", []));
      r.state.items == [a] && r.commands == [OpenPanel]
  {
    var cfg := DefaultConfig().(showDropdownIfEmpty := true);
    var a := map["display" := "A", "value" := "A"];
    var st := Closed([Rec(a)]);
    var host := Host("", []);
    EmptyTextMatchesAnyDisplay(cfg.displayBy, a);
    TrimNoEdgeSpace("");
    assert !IsSelected(cfg, [], a);
    assert Keep(cfg, [], "", a);
    KeyupOnOneCandidate(cfg, st, host, a);
    var r := Show(cfg, st, host);
    assert r.state.items == [a];
    assert CurrentMatches(cfg, st, host).value != [];
    assert OpenPanel in r.commands && |r.commands| <= 1;
  }

  /** Typing "ab" with an asynchronous source raises the loading flag and fetches "ab". */
  lemma ScenarioFetchStarts()
    ensures var cfg := DefaultConfig().(hasAutocompleteObservable := true);
            var r := Step(cfg, Closed([]), Host("ab", []), TextChange("ab"));
      r.commands == [Fetch("ab")] && r.state == Closed([]).(loading := true)
  {
    var cfg := DefaultConfig().(hasAutocompleteObservable := true);
    TrimNoEdgeSpace("ab");
    TextChangeStartsFetch(cfg, Closed([]), Host("ab", []), "ab");
  }

  /** The answer ["X"] lowers the loading flag and becomes the pool, read back as one record. */
  lemma ScenarioFetchSucceeds()
    ensures var cfg := DefaultConfig().(hasAutocompleteObservable := true);
            var s := Deliver(cfg, Closed([]).(loading := true), Host("ab", []), FetchOk([Str("X")]));
      && !s.loading
      && AutocompleteItems("display", "value", s.pool) == [map["display" := "X", "value" := "X"]]
  {
    var cfg := DefaultConfig().(hasAutocompleteObservable := true);
    FetchSuccessReplacesPool(cfg, Closed([]).(loading := true), Host("ab", []), [Str("X")]);
    assert NormaliseAll("display", "value", [Str("X")]) == [map["display" := "X", "value" := "X"]];
  }

  /** A failed fetch lowers the loading flag, keeps the pool and does not open the panel. */
  lemma ScenarioFetchFails()
    ensures var cfg := DefaultConfig().(hasAutocompleteObservable := true);
            var s := Deliver(cfg, State(Some([Rec(Paris())]), [], false, true), Host("ab", []), FetchErr);
      !s.loading && s.pool == Some([Rec(Paris())]) && !s.visible
  {
  }

  /** Clicking Paris for a host that displays tags by "name" adds a tag whose
      "name" is "Paris" and whose "value" is "PAR"; the panel ends closed and empty. */
  lemma ScenarioClickSelection()
    ensures var cfg := DefaultConfig().(hostDisplayBy := "name");
            var st := State(Some([Rec(Paris())]), [Paris()], true, false);
            var r := Step(cfg, st, Host("par", []), ItemClicked(Some(Paris())));
            var s := Deliver(cfg, st, Host("par", []), ItemClicked(Some(Paris())));
      && r.commands[0] == RequestAdd(true, map["display" := "Paris", "value" := "PAR", "name" := "Paris"])
      && s.items == [] && !s.visible
  {
    var cfg := DefaultConfig().(hostDisplayBy := "name");
    var st := State(Some([Rec(Paris())]), [Paris()], true, false);
    ClickAddsOnceThenHides(cfg, st, Host("par", []), Paris());
  }

  /** Text shorter than the minimum keeps the panel closed, but `items` still receives
      the matches when the panel was already closed. */
  lemma ScenarioShortTextKeepsMatches()
    ensures var cfg := DefaultConfig().(minimumTextLength := 3);
            var s := Deliver(cfg, Closed([Rec(Paris())]), Host("pa", []), Keyup);
      !s.visible && s.items == [Paris()]
  {
    var cfg := DefaultConfig().(minimumTextLength := 3);
    var st := Closed([Rec(Paris())]);
    var host := Host("pa", []);
    ParisKeyup(cfg, "pa");
    assert !IsSelected(cfg, [], Paris());
    assert Keep(cfg, [], "pa", Paris());
    KeyupOnOneCandidate(cfg, st, host, Paris());
    var r := Show(cfg, st, host);
    assert r.state.items == [Paris()];
    assert OpenPanel !in r.commands && ClosePanel !in r.commands && |r.commands| <= 1;
    assert r.commands == [];
    ApplyFrame(r.state, r.commands);
  }
}
