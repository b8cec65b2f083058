/** The component's `@Input` configuration together with the two keys it reads from its host. */
module Settings {
  import opened Wrappers
  import opened Candidates

  /** `matchingFn`: the built-in case-insensitive substring test, or a caller-supplied
      predicate, which like any caller code may throw. */
  datatype MatchingFn = DefaultMatching | CustomMatching(pred: (string, Record) -> Completion<bool>)

  datatype Config = Config(
    displayBy: string,                // candidate field shown in the panel
    identifyBy: string,               // candidate field compared with selected tags
    hostDisplayBy: string,            // the host's `displayBy`
    hostIdentifyBy: string,           // the host's `identifyBy`
    matchingFn: MatchingFn,
    showDropdownIfEmpty: bool,
    minimumTextLength: int,
    limitItemsTo: Option<nat>,        // unset, or a non-negative limit (0 means no limit)
    hasAutocompleteObservable: bool   // whether an asynchronous source is configured
  )

  /** The defaults the component and its host declare. */
  function DefaultConfig(): Config {
    Config("display", "value", "display", "value", DefaultMatching, false, 1, None, false)
  }
}
