/**
 * `ErrorBoundary`: wraps a subtree, remembers the first rendering fault
 * raised beneath it, and from then on shows a fallback instead of the subtree.
 */
module ErrorBoundaries {
  import opened Wrappers

  /** A thrown `Error`; JavaScript gives an error built without a message the message "". */
  datatype JsError = JsError(message: string)

  /**
   * The component state: whether a fault was caught, and what was thrown.
   * `None` is both "nothing caught yet" and a thrown value that carries no
   * message, such as `throw null`, so a faulted state may hold `None`.
   */
  datatype State = State(hasError: bool, error: Option<JsError>)

  const DefaultMessage: string := "An unexpected error occurred"
  const PanelHeading: string := "Something went wrong"
  const ReloadLabel: string := "Reload Page"

  /** The state a fault moves the boundary to: faulted, holding the error. */
  function GetDerivedStateFromError(e: Option<JsError>): (s: State)
    ensures s.hasError && s.error == e
  {
    State(true, e)
  }

  /** The component's props: the wrapped subtree and an optional replacement for it. */
  datatype Props<N> = Props(children: N, fallback: Option<N>)

  /** What `render` returns: a caller's node, or the built-in fault panel with its reload button. */
  datatype View<N> = Node(node: N) | ErrorPanel(heading: string, message: string, action: string)

  /** `error?.message || 'An unexpected error occurred'`: never an empty line. */
  function PanelMessage(error: Option<JsError>): (m: string)
    ensures m != ""
    ensures error.Some? && error.value.message != "" ==> m == error.value.message
    ensures error == None || error.value.message == "" ==> m == DefaultMessage
  {
    if error.Some? && error.value.message != "" then error.value.message else DefaultMessage
  }

  /**
   * `render`: the children while nothing has failed; after a fault, the
   * caller's fallback when one was given and the default panel otherwise.
   */
  function Render<N>(state: State, props: Props<N>): (v: View<N>)
    ensures !state.hasError ==> v == Node(props.children)
    ensures state.hasError && props.fallback.Some? ==> v == Node(props.fallback.value)
    ensures v.ErrorPanel? <==> state.hasError && props.fallback == None
    ensures v.ErrorPanel? ==> v.heading == PanelHeading && v.action == ReloadLabel
    ensures v.ErrorPanel? ==> v.message == PanelMessage(state.error) && v.message != ""
  {
    if state.hasError then
      match props.fallback
      case Some(f) => Node(f)
      case None => ErrorPanel(PanelHeading, PanelMessage(state.error), ReloadLabel)
    else
      Node(props.children)
  }

  /**
   * After catching `e` with no fallback, the panel shows `e`'s message, or
   * the default one when it is empty or the thrown value has none.
   */
  lemma CaughtErrorIsShown<N>(e: Option<JsError>, children: N)
    ensures Render(GetDerivedStateFromError(e), Props(children, None)) ==
      ErrorPanel(PanelHeading, if e == None || e.value.message == "" then DefaultMessage else e.value.message, ReloadLabel)
  {
  }

  /**
   * One mounted boundary: the parent may hand it new props on every render,
   * and its state changes when a fault is caught.
   */
  class ErrorBoundary<N> {
    var props: Props<N>
    var state: State

    /** A fresh boundary has seen no fault. */
    constructor (props: Props<N>)
      ensures this.props == props
      ensures state == State(false, None)
    {
      this.props := props;
      state := State(false, None);
    }

    /**
     * A fault raised while rendering the subtree. The state becomes the one
     * `GetDerivedStateFromError` derives; no operation ever clears it again.
     */
    method CatchError(e: Option<JsError>)
      modifies this
      ensures state == GetDerivedStateFromError(e) && props == old(props)
      ensures old(state.hasError) ==> state.hasError
    {
      state := GetDerivedStateFromError(e);
    }

    /**
     * The parent re-renders with new props (a navigation gives new children):
     * the props are replaced and the state is kept, so a faulted boundary
     * keeps showing its fallback in place of the new children.
     */
    method ReceiveProps(p: Props<N>)
      modifies this
      ensures props == p && state == old(state)
      ensures old(state.hasError) ==> Current() != Node(p.children) || p.fallback == Some(p.children)
    {
      props := p;
    }

    /**
     * The view the boundary renders in its current state: the subtree itself
     * exactly while no fault was caught, unless the caller's fallback is that
     * very subtree.
     */
    function Current(): (v: View<N>)
      reads this
      ensures v == Node(props.children) <==> !state.hasError || props.fallback == Some(props.children)
    {
      Render(state, props)
    }
  }
}
