/** The error boundary around the console (src/components/ErrorBoundary.tsx):
    a three-field state machine driven by React's error hooks and the reset
    button, and the choice of what it renders. */
module ErrorBoundaries {
  import opened Wrappers

  /** A thrown `Error`, represented by its `toString()` text. */
  datatype Failure = Failure(text: string)

  /** React's `ErrorInfo`. */
  datatype ErrorInfo = ErrorInfo(componentStack: string)

  /** `ErrorBoundaryState`. */
  datatype BoundaryState = BoundaryState(hasError: bool, error: Option<Failure>, errorInfo: Option<ErrorInfo>)

  /** What happens to the boundary: a descendant throws (React first takes
      `getDerivedStateFromError`), React reports it to `componentDidCatch`,
      or the user presses "Tentar novamente" (`resetError`). */
  datatype Event = Thrown(thrown: Failure) | Caught(caught: Failure, info: ErrorInfo) | Reset

  function Initial(): (s: BoundaryState)
    ensures !s.hasError && s.error.None? && s.errorInfo.None?
  {
    BoundaryState(false, None, None)
  }

  /** `getDerivedStateFromError(e)`. */
  function DerivedStateFromError(e: Failure): (s: BoundaryState)
    ensures s.hasError && s.error == Some(e) && s.errorInfo.None?
  {
    BoundaryState(true, Some(e), None)
  }

  /** The state after one event: `setState` merges the keys each handler
      names into the current state. */
  function Step(s: BoundaryState, ev: Event): (r: BoundaryState)
    ensures ev.Thrown? ==> r.hasError && r.error == Some(ev.thrown) && r.errorInfo.None?
    ensures ev.Caught? ==> r.hasError == s.hasError && r.error == Some(ev.caught) && r.errorInfo == Some(ev.info)
    ensures ev.Reset? ==> r == Initial()
    ensures !ev.Reset? ==> r.hasError == (s.hasError || ev.Thrown?)
  {
    match ev
    case Thrown(e) => DerivedStateFromError(e)
    case Caught(e, info) => s.(error := Some(e), errorInfo := Some(info))
    case Reset => Initial()
  }

  /** The state after a sequence of events. */
  function Run(s: BoundaryState, evs: seq<Event>): BoundaryState
    decreases |evs|
  {
    if evs == [] then s else Run(Step(s, evs[0]), evs[1..])
  }

  /** Once faulted, the boundary stays faulted until a reset: no other
      handler clears `hasError`. */
  lemma {:induction false} NoResetKeepsFault(s: BoundaryState, evs: seq<Event>)
    requires s.hasError
    requires forall i :: 0 <= i < |evs| ==> !evs[i].Reset?
    ensures Run(s, evs).hasError
    decreases |evs|
  {
    if evs != [] {
      NoResetKeepsFault(Step(s, evs[0]), evs[1..]);
    }
  }

  /** The fields agree: a healthy boundary holds no error, and error info
      comes only with an error. */
  predicate Consistent(s: BoundaryState) {
    (!s.hasError ==> s.error.None? && s.errorInfo.None?)
    && (s.errorInfo.Some? ==> s.error.Some?)
  }

  /** React's order: `componentDidCatch` runs only after the derived state
      has marked the boundary as faulted. */
  predicate InReactOrder(s: BoundaryState, evs: seq<Event>)
    decreases |evs|
  {
    evs == [] || ((evs[0].Caught? ==> s.hasError) && InReactOrder(Step(s, evs[0]), evs[1..]))
  }

  /** In React's order every reachable state is consistent. */
  lemma {:induction false} ReactOrderKeepsConsistent(s: BoundaryState, evs: seq<Event>)
    requires Consistent(s) && InReactOrder(s, evs)
    ensures Consistent(Run(s, evs))
    decreases |evs|
  {
    if evs != [] {
      ReactOrderKeepsConsistent(Step(s, evs[0]), evs[1..]);
    }
  }

  /** The optional details block of the built-in panel. */
  datatype Details = Details(errorText: string, componentStack: Option<string>)

  /** What `render` returns: the children, the custom fallback (given the
      current error and `resetError`), or the built-in panel. */
  datatype Rendered = Children | Fallback(error: Option<Failure>) | Panel(details: Option<Details>)

  function StackOf(info: Option<ErrorInfo>): Option<string> {
    match info
    case None => None
    case Some(i) => Some(i.componentStack)
  }

  /** `render()`; `development` is `NODE_ENV === 'development'`. */
  function Render(s: BoundaryState, hasFallback: bool, development: bool): (r: Rendered)
    ensures r.Children? <==> !s.hasError
    ensures r.Fallback? <==> s.hasError && hasFallback
    ensures r.Fallback? ==> r.error == s.error
    ensures r.Panel? <==> s.hasError && !hasFallback
    ensures r.Panel? ==> (r.details.Some? <==> development && s.error.Some?)
    ensures r.Panel? && r.details.Some? ==> r.details.value.errorText == s.error.value.text
  {
    if !s.hasError then Children
    else if hasFallback then Fallback(s.error)
    else if development && s.error.Some? then Panel(Some(Details(s.error.value.text, StackOf(s.errorInfo))))
    else Panel(None)
  }

  /** A crash caught in development shows the panel with the error text and
      the component stack React reported. */
  lemma CrashShowsDetails(e: Failure, info: ErrorInfo)
    ensures Render(Run(Initial(), [Thrown(e), Caught(e, info)]), false, true)
            == Panel(Some(Details(e.text, Some(info.componentStack))))
  {
    var s1 := Step(Initial(), Thrown(e));
    var s2 := Step(s1, Caught(e, info));
    assert Run(Initial(), [Thrown(e), Caught(e, info)]) == Run(s1, [Caught(e, info)]);
    assert Run(s1, [Caught(e, info)]) == Run(s2, []);
  }

  /** The component: `this.state` as three fields. */
  class ErrorBoundary {
    var hasError: bool
    var error: Option<Failure>
    var errorInfo: Option<ErrorInfo>

    function State(): BoundaryState
      reads this
    {
      BoundaryState(hasError, error, errorInfo)
    }

    constructor ()
      ensures State() == Initial()
    {
      hasError := false;
      error := None;
      errorInfo := None;
    }

    /** React applies `getDerivedStateFromError(e)`. */
    method ErrorThrown(e: Failure)
      modifies this
      ensures State() == Step(old(State()), Thrown(e))
    {
      var derived := DerivedStateFromError(e);
      hasError, error, errorInfo := derived.hasError, derived.error, derived.errorInfo;
    }

    /** `componentDidCatch(e, info)`: records both, leaves `hasError`. */
    method DidCatch(e: Failure, info: ErrorInfo)
      modifies this
      ensures State() == Step(old(State()), Caught(e, info))
    {
      error := Some(e);
      errorInfo := Some(info);
    }

    /** `resetError`. */
    method ResetError()
      modifies this
      ensures State() == Step(old(State()), Reset)
    {
      hasError := false;
      error := None;
      errorInfo := None;
    }

    /** `render()` reads the state and changes nothing. */
    method View(hasFallback: bool, development: bool) returns (r: Rendered)
      ensures r == Render(State(), hasFallback, development)
    {
      if !hasError {
        return Children;
      }
      if hasFallback {
        return Fallback(error);
      }
      if development && error.Some? {
        return Panel(Some(Details(error.value.text, StackOf(errorInfo))));
      }
      r := Panel(None);
    }
  }
}
