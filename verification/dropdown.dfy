/** The suggestion controller of `TagInputDropdown`: one state record and one
    reaction per event. The panel widget and the host input are collaborators:
    the controller reads a snapshot of the host and answers with commands. */
module Dropdown {
  import opened Wrappers
  import opened JsString
  import opened Candidates
  import opened Settings
  import opened Matching

  /** `_autocompleteItems`, `items`, the panel's `isVisible` and the host's `isLoading`. */
  datatype State = State(pool: Option<seq<Candidate>>, items: seq<Record>, visible: bool, loading: bool)

  /** What the controller reads from its host when it reacts: the raw input text and the selected tags' models. */
  datatype Host = Host(text: string, tags: seq<Candidate>)

  /** Commands to the panel (`show`, `hide`, `updatePosition`), to the host
      (`onAddingRequested`) and to the asynchronous source (`autocompleteObservable(text)`). */
  datatype Command =
    | OpenPanel
    | ClosePanel
    | UpdatePosition
    | RequestAdd(fromAutocomplete: bool, tag: Record)
    | Fetch(text: string)

  /** Notifications the controller subscribes to. `item` of `ItemClicked` is the clicked menu item's value, if any. */
  datatype Event =
    | Keyup
    | TextChange(text: string)
    | FetchOk(data: seq<Candidate>)
    | FetchErr
    | ItemClicked(item: Option<Record>)
    | Hidden
    | Scroll
    | SetAutocompleteItems(items: Option<seq<Candidate>>)

  /** The outcome of one event: the new state, the commands issued in order,
      and whether the handler threw (a TypeError from the matching test). */
  datatype Reaction = Reaction(state: State, commands: seq<Command>, threw: bool)

  predicate IsPanelCommand(c: Command) {
    c == OpenPanel || c == ClosePanel
  }

  /** The open/close decision of `show`; `showIfEmpty` is the component's local
      `showDropdownIfEmpty && hasItems && !value`. */
  function PanelPolicy(hasItems: bool, isVisible: bool, hasMinimumText: bool, showIfEmpty: bool): (cmds: seq<Command>)
    ensures |cmds| <= 1
    ensures forall c :: c in cmds ==> IsPanelCommand(c)
    ensures OpenPanel in cmds <==> !isVisible && ((hasItems && hasMinimumText) || showIfEmpty)
    ensures ClosePanel in cmds <==> isVisible && (!hasItems || !hasMinimumText)
  {
    var showDropdown := (hasItems && !isVisible && hasMinimumText) || showIfEmpty;
    var hideDropdown := isVisible && (!hasItems || !hasMinimumText);
    if showDropdown && !isVisible then [OpenPanel]
    else if hideDropdown then [ClosePanel]
    else []
  }

  /** The matches for the current (trimmed) input text, before truncation. */
  function CurrentMatches(cfg: Config, st: State, host: Host): Completion<seq<Record>> {
    GetMatchingItems(cfg, st.pool, host.tags, Trim(host.text))
  }

  /** The condition under which `show` opens a closed panel, in terms of the configuration and the text. */
  predicate WantsOpen(cfg: Config, matches: seq<Record>, value: string) {
    && matches != []
    && (|value| >= cfg.minimumTextLength || (cfg.showDropdownIfEmpty && value == ""))
  }

  /** `show`: recompute the matches, reassign `items`, then open or close the panel. */
  function Show(cfg: Config, st: State, host: Host): (r: Reaction)
    ensures r.threw <==> CurrentMatches(cfg, st, host).TypeError?
    ensures r.threw ==> r.state == st && r.commands == []
    ensures r.state.pool == st.pool && r.state.visible == st.visible && r.state.loading == st.loading
    ensures !r.threw ==>
      var m := CurrentMatches(cfg, st, host).value;
      && |r.state.items| <= |m| && r.state.items == m[..|r.state.items|]
      && (r.state.items == [] <==> m == [])
      && r.state.items == SetItems(cfg.limitItemsTo, m)
    ensures |r.commands| <= 1 && forall c :: c in r.commands ==> IsPanelCommand(c)
    ensures OpenPanel in r.commands <==>
      !r.threw && !st.visible && WantsOpen(cfg, CurrentMatches(cfg, st, host).value, Trim(host.text))
    ensures ClosePanel in r.commands <==>
      !r.threw && st.visible &&
      (CurrentMatches(cfg, st, host).value == [] || |Trim(host.text)| < cfg.minimumTextLength)
  {
    var value := Trim(host.text);
    match GetMatchingItems(cfg, st.pool, host.tags, value)
    case TypeError => Reaction(st, [], true)
    case Normal(items) =>
      var hasItems := |items| > 0;
      var showIfEmpty := cfg.showDropdownIfEmpty && hasItems && value == "";
      var hasMinimumText := |value| >= cfg.minimumTextLength;
      SetItemsKeepsAvailability(cfg.limitItemsTo, items);
      Reaction(st.(items := SetItems(cfg.limitItemsTo, items)),
               PanelPolicy(hasItems, st.visible, hasMinimumText, showIfEmpty), false)
  }

  /** `createTagModel`: the clicked record with the host's display and identity
      fields overwritten by the candidate's own display and identity values. */
  function CreateTagModel(cfg: Config, value: Record): (tag: Record)
    ensures Lookup(tag, cfg.hostIdentifyBy) == Lookup(value, cfg.identifyBy)
    ensures cfg.hostDisplayBy != cfg.hostIdentifyBy ==> Lookup(tag, cfg.hostDisplayBy) == Lookup(value, cfg.displayBy)
    ensures forall k :: k != cfg.hostDisplayBy && k != cfg.hostIdentifyBy ==> Lookup(tag, k) == Lookup(value, k)
  {
    var display := Lookup(value, cfg.displayBy);
    var identity := Lookup(value, cfg.identifyBy);
    Assign(Assign(value, cfg.hostDisplayBy, display), cfg.hostIdentifyBy, identity)
  }

  /** `requestAdding`: ignore a missing item; otherwise ask the host to add the tag, then hide the panel. */
  function RequestAdding(cfg: Config, st: State, item: Option<Record>): (r: Reaction)
    ensures r.state == st && !r.threw
    ensures item.None? ==> r.commands == []
    ensures item.Some? ==>
      && |r.commands| == 2
      && r.commands[0].RequestAdd? && r.commands[0].fromAutocomplete
      && r.commands[0].tag == CreateTagModel(cfg, item.value)
      && r.commands[1] == ClosePanel
  {
    match item
    case None => Reaction(st, [], false)
    case Some(v) => Reaction(st, [RequestAdd(true, CreateTagModel(cfg, v)), ClosePanel], false)
  }

  /** `resetItems`, subscribed to the panel's hide notification; the panel is hidden from then on. */
  function OnHide(st: State): (s: State)
    ensures s.items == [] && !s.visible
    ensures s.pool == st.pool && s.loading == st.loading
  {
    st.(items := [], visible := false)
  }

  /** The `onTextChange` subscription: texts whose trimmed length reaches the
      minimum start a fetch (`getItemsFromObservable`) and raise the loading flag. */
  function OnTextChange(cfg: Config, st: State, text: string): (r: Reaction)
    ensures !r.threw && r.state.pool == st.pool && r.state.items == st.items && r.state.visible == st.visible
    ensures r.commands != [] <==> cfg.hasAutocompleteObservable && |Trim(text)| >= cfg.minimumTextLength
    ensures r.commands != [] ==> r.commands == [Fetch(text)] && r.state.loading
    ensures r.commands == [] ==> r.state == st
  {
    if cfg.hasAutocompleteObservable && |Trim(text)| >= cfg.minimumTextLength then
      Reaction(st.(loading := true), [Fetch(text)], false)
    else
      Reaction(st, [], false)
  }

  /** The success callback: stop loading, store the normalised data, run `show`. */
  function OnFetchSuccess(cfg: Config, st: State, host: Host, data: seq<Candidate>): (r: Reaction)
    ensures !r.state.loading
    ensures r.state.pool == Some(PopulateItems(cfg.displayBy, cfg.identifyBy, data))
    ensures r.state.visible == st.visible
    ensures r == Show(cfg, st.(loading := false, pool := r.state.pool), host)
  {
    Show(cfg, st.(loading := false, pool := Some(PopulateItems(cfg.displayBy, cfg.identifyBy, data))), host)
  }

  /** The error callback: stop loading and change nothing else. */
  function OnFetchError(st: State): (r: Reaction)
    ensures !r.state.loading && !r.threw && r.commands == []
    ensures r.state.pool == st.pool && r.state.items == st.items && r.state.visible == st.visible
  {
    Reaction(st.(loading := false), [], false)
  }

  /** `scrollListener`: reposition an open panel, do nothing for a closed one. */
  function ScrollListener(st: State): (r: Reaction)
    ensures r.state == st && !r.threw
    ensures r.commands == (if st.visible then [UpdatePosition] else [])
  {
    if !st.visible then Reaction(st, [], false) else Reaction(st, [UpdatePosition], false)
  }

  /** The controller's reaction to one event: the subscriptions made in `ngOnInit`,
      the scroll listener and the `autocompleteItems` setter. */
  function Step(cfg: Config, st: State, host: Host, ev: Event): (r: Reaction)
    ensures |r.commands| <= 2
    ensures r.threw ==> ev.Keyup? || ev.FetchOk?
    ensures !(ev.TextChange? || ev.FetchOk? || ev.FetchErr?) ==> r.state.loading == st.loading
    ensures !(ev.FetchOk? || ev.SetAutocompleteItems?) ==> r.state.pool == st.pool
    ensures ev.SetAutocompleteItems? ==> r.state == st.(pool := ev.items) && r.commands == []
    ensures ev.Keyup? ==> r == Show(cfg, st, host)
    ensures ev.TextChange? ==> r == OnTextChange(cfg, st, ev.text)
    ensures ev.ItemClicked? ==> r == RequestAdding(cfg, st, ev.item)
    ensures ev.Hidden? ==> r.state == OnHide(st) && r.commands == []
  {
    match ev
    case Keyup => Show(cfg, st, host)
    case TextChange(text) => OnTextChange(cfg, st, text)
    case FetchOk(data) => OnFetchSuccess(cfg, st, host, data)
    case FetchErr => OnFetchError(st)
    case ItemClicked(item) => RequestAdding(cfg, st, item)
    case Hidden => Reaction(OnHide(st), [], false)
    case Scroll => ScrollListener(st)
    case SetAutocompleteItems(items) => Reaction(st.(pool := items), [], false)
  }

  /** The panel obeying one command: `show` makes it visible; `hide` hides it and
      fires the hide notification, which resets `items`; other commands are not its own. */
  function PanelReaction(st: State, c: Command): State {
    match c
    case OpenPanel => st.(visible := true)
    case ClosePanel => OnHide(st)
    case _ => st
  }

  /** The panel obeying the controller's commands in order. */
  function Apply(st: State, cmds: seq<Command>): State
    decreases |cmds|
  {
    if cmds == [] then st else Apply(PanelReaction(st, cmds[0]), cmds[1..])
  }

  /** One event followed by the panel's reaction to the commands it caused. */
  function Deliver(cfg: Config, st: State, host: Host, ev: Event): State {
    var r := Step(cfg, st, host, ev);
    Apply(r.state, r.commands)
  }

  /** A stream of events delivered one at a time, the host unchanged throughout. */
  function Run(cfg: Config, st: State, host: Host, evs: seq<Event>): State
    decreases |evs|
  {
    if evs == [] then st else Run(cfg, Deliver(cfg, st, host, evs[0]), host, evs[1..])
  }
}
