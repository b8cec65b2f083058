/** Properties of the suggestion controller that span several events or
    combine the controller with the panel's reaction to its commands. */
module DropdownProperties {
  import opened Wrappers
  import opened JsString
  import opened Candidates
  import opened Settings
  import opened Matching
  import opened Dropdown

  /** The panel only toggles visibility and resets `items`; the pool and the loading flag are the controller's. */
  lemma {:induction false} ApplyFrame(st: State, cmds: seq<Command>)
    ensures Apply(st, cmds).pool == st.pool && Apply(st, cmds).loading == st.loading
    ensures Apply(st, cmds).items == st.items || Apply(st, cmds).items == []
    ensures ClosePanel !in cmds && OpenPanel !in cmds ==> Apply(st, cmds) == st
    decreases |cmds|
  {
    if cmds != [] {
      ApplyFrame(PanelReaction(st, cmds[0]), cmds[1..]);
      assert forall c :: c in cmds[1..] ==> c in cmds;
    }
  }

  /** The panel obeys a single command. */
  lemma ApplyOne(st: State, c: Command)
    ensures Apply(st, [c]) == PanelReaction(st, c)
  {
    assert [c][1..] == [];
  }

  /** Everything `show` puts in `items` is a candidate of the pool that matches the text and is not selected. */
  lemma ShownItemsAreSuggestions(cfg: Config, st: State, host: Host, x: Record)
    requires !Show(cfg, st, host).threw && x in Show(cfg, st, host).state.items
    ensures x in AutocompleteItems(cfg.displayBy, cfg.identifyBy, st.pool)
    ensures Keep(cfg, host.tags, Trim(host.text), x)
  {
    var m := CurrentMatches(cfg, st, host).value;
    var shown := Show(cfg, st, host).state.items;
    assert x in m by {
      assert shown == m[..|shown|];
    }
    SubsequenceMembers(m, AutocompleteItems(cfg.displayBy, cfg.identifyBy, st.pool), x);
  }

  /** Whether a closed panel opens may be judged on the shown (truncated) items as well as on all matches. */
  lemma OpenDecisionOnShownItems(cfg: Config, st: State, host: Host)
    ensures var r := Show(cfg, st, host);
      OpenPanel in r.commands <==> !r.threw && !st.visible && WantsOpen(cfg, r.state.items, Trim(host.text))
  {
  }

  /** No event makes the controller both open and close the panel. */
  lemma NeverOpenAndClose(cfg: Config, st: State, host: Host, ev: Event)
    ensures var r := Step(cfg, st, host, ev); !(OpenPanel in r.commands && ClosePanel in r.commands)
  {
  }

  /** Below the minimum length (and outside the empty-text escape hatch) a keyup never opens the
      panel, and an open panel ends closed with `items` reset, unless the matching test threw. */
  lemma ShortTextNeverOpens(cfg: Config, st: State, host: Host)
    requires |Trim(host.text)| < cfg.minimumTextLength
    requires !cfg.showDropdownIfEmpty || Trim(host.text) != ""
    ensures OpenPanel !in Step(cfg, st, host, Keyup).commands
    ensures !st.visible || !Step(cfg, st, host, Keyup).threw ==> !Deliver(cfg, st, host, Keyup).visible
    ensures st.visible && !Step(cfg, st, host, Keyup).threw ==> Deliver(cfg, st, host, Keyup).items == []
  {
    var r := Show(cfg, st, host);
    if r.commands == [] {
      ApplyFrame(r.state, r.commands);
    } else {
      ApplyOne(r.state, r.commands[0]);
      assert r.commands == [r.commands[0]];
    }
  }

  /** Recomputing with unchanged text, pool and selection shows the same items,
      whatever the panel did in between. */
  lemma RecomputeIsStable(cfg: Config, st: State, host: Host)
    requires CurrentMatches(cfg, st, host).Normal?
    ensures var r1 := Show(cfg, st, host);
            var r2 := Show(cfg, Apply(r1.state, r1.commands), host);
            !r2.threw && r2.state.items == r1.state.items
  {
    var r1 := Show(cfg, st, host);
    ApplyFrame(r1.state, r1.commands);
  }

  /** With `showDropdownIfEmpty`, a positive minimum and an empty text, one keyup opens
      a closed panel and the next keyup closes it again, resetting `items`. */
  lemma ShowIfEmptyTogglesOnEachKeyup(cfg: Config, st: State, host: Host)
    requires cfg.showDropdownIfEmpty && cfg.minimumTextLength >= 1 && Trim(host.text) == ""
    requires CurrentMatches(cfg, st, host).Normal? && CurrentMatches(cfg, st, host).value != []
    requires !st.visible
    ensures Deliver(cfg, st, host, Keyup).visible
    ensures !Deliver(cfg, Deliver(cfg, st, host, Keyup), host, Keyup).visible
    ensures Deliver(cfg, Deliver(cfg, st, host, Keyup), host, Keyup).items == []
  {
    var r1 := Show(cfg, st, host);
    assert r1.commands == [OpenPanel];
    ApplyOne(r1.state, OpenPanel);
    var s1 := Apply(r1.state, r1.commands);
    var r2 := Show(cfg, s1, host);
    assert r2.commands == [ClosePanel];
    ApplyOne(r2.state, ClosePanel);
  }

  /** A click on a missing item does nothing. */
  lemma ClickOnNothingIsNoOp(cfg: Config, st: State, host: Host)
    ensures Step(cfg, st, host, ItemClicked(None)) == Reaction(st, [], false)
    ensures Deliver(cfg, st, host, ItemClicked(None)) == st
  {
  }

  /** A click on an item issues exactly one add request, marked as coming from the
      suggestions, and leaves the panel hidden with `items` reset. */
  lemma ClickAddsOnceThenHides(cfg: Config, st: State, host: Host, v: Record)
    ensures var r := Step(cfg, st, host, ItemClicked(Some(v)));
      && |r.commands| == 2
      && (forall i :: 0 <= i < |r.commands| && r.commands[i].RequestAdd? ==> i == 0)
      && r.commands[0] == RequestAdd(true, CreateTagModel(cfg, v))
    ensures var s := Deliver(cfg, st, host, ItemClicked(Some(v)));
      s.items == [] && !s.visible && s.pool == st.pool && s.loading == st.loading
  {
    var r := Step(cfg, st, host, ItemClicked(Some(v)));
    assert r.commands[1..] == [ClosePanel];
    ApplyOne(r.state, ClosePanel);
  }

  /** Any hide notification, whoever caused it, resets `items`. */
  lemma HideResetsItems(cfg: Config, st: State, host: Host)
    ensures Deliver(cfg, st, host, Hidden).items == []
    ensures !Deliver(cfg, st, host, Hidden).visible
    ensures Deliver(cfg, st, host, Hidden).pool == st.pool
  {
  }

  /** A successful fetch ends loading and leaves the pool reading back as the normalised data. */
  lemma FetchSuccessReplacesPool(cfg: Config, st: State, host: Host, data: seq<Candidate>)
    ensures !Deliver(cfg, st, host, FetchOk(data)).loading
    ensures AutocompleteItems(cfg.displayBy, cfg.identifyBy, Deliver(cfg, st, host, FetchOk(data)).pool)
         == NormaliseAll(cfg.displayBy, cfg.identifyBy, data)
  {
    var r := Step(cfg, st, host, FetchOk(data));
    ApplyFrame(r.state, r.commands);
    PopulateThenRead(cfg.displayBy, cfg.identifyBy, data);
  }

  /** A qualifying text change raises the loading flag and fetches the raw text, touching nothing else. */
  lemma TextChangeStartsFetch(cfg: Config, st: State, host: Host, text: string)
    requires cfg.hasAutocompleteObservable && |Trim(text)| >= cfg.minimumTextLength
    ensures Step(cfg, st, host, TextChange(text)) == Reaction(st.(loading := true), [Fetch(text)], false)
  {
  }

  /** A text change, with the panel's reaction, leaves the state `OnTextChange` gives. */
  lemma DeliverTextChange(cfg: Config, st: State, host: Host, text: string)
    ensures Deliver(cfg, st, host, TextChange(text)) == OnTextChange(cfg, st, text).state
  {
    var r := OnTextChange(cfg, st, text);
    assert Step(cfg, st, host, TextChange(text)) == r;
    ApplyFrame(r.state, r.commands);
  }

  /** A fetch error, with the panel's reaction, only lowers the loading flag. */
  lemma DeliverFetchErr(cfg: Config, st: State, host: Host)
    ensures Deliver(cfg, st, host, FetchErr) == st.(loading := false)
  {
    var r := OnFetchError(st);
    assert Step(cfg, st, host, FetchErr) == r;
    ApplyFrame(r.state, r.commands);
  }

  /** A fetch that starts and then fails restores the loading flag and changes nothing else. */
  lemma FetchStartThenErrorRestores(cfg: Config, st: State, host: Host, text: string)
    requires !st.loading
    ensures Deliver(cfg, Deliver(cfg, st, host, TextChange(text)), host, FetchErr) == st
  {
    DeliverTextChange(cfg, st, host, text);
    var s1 := OnTextChange(cfg, st, text).state;
    DeliverFetchErr(cfg, s1, host);
    assert s1 == st || s1 == st.(loading := true);
  }

  /** Any number of scrolls, each answered by the panel repositioning itself, leaves the controller as it was. */
  lemma {:induction false} ScrollsChangeNothing(cfg: Config, st: State, host: Host, evs: seq<Event>)
    requires forall i :: 0 <= i < |evs| ==> evs[i].Scroll?
    ensures Run(cfg, st, host, evs) == st
    decreases |evs|
  {
    if evs != [] {
      assert Deliver(cfg, st, host, evs[0]) == st;
      ScrollsChangeNothing(cfg, st, host, evs[1..]);
    }
  }

  /** The limit on shown items, when positive, holds after every event. */
  predicate WithinLimit(cfg: Config, st: State) {
    cfg.limitItemsTo.Some? && cfg.limitItemsTo.value > 0 ==> |st.items| <= cfg.limitItemsTo.value
  }

  lemma DeliverKeepsLimit(cfg: Config, st: State, host: Host, ev: Event)
    requires WithinLimit(cfg, st)
    ensures WithinLimit(cfg, Deliver(cfg, st, host, ev))
  {
    var r := Step(cfg, st, host, ev);
    ApplyFrame(r.state, r.commands);
  }

  /** A positive limit holds after any stream of events. */
  lemma {:induction false} RunKeepsLimit(cfg: Config, st: State, host: Host, evs: seq<Event>)
    requires WithinLimit(cfg, st)
    ensures WithinLimit(cfg, Run(cfg, st, host, evs))
    decreases |evs|
  {
    if evs != [] {
      DeliverKeepsLimit(cfg, st, host, evs[0]);
      RunKeepsLimit(cfg, Deliver(cfg, st, host, evs[0]), host, evs[1..]);
    }
  }
}
