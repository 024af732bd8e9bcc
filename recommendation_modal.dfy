/**
 * The AI recommendation modal: three state slots (`analysis`,
 * `loading`, `error`) driven by the effect that starts a request when
 * the product changes and by that request's success or failure.
 * Completions carry no tag saying which product they belong to.
 */
module RecommendationModal {
  import opened Wrappers
  import opened Entities

  const FailureText := "Failed to get AI recommendation. Please try again."

  datatype ModalState = ModalState(analysis: Option<Analysis>, loading: bool, error: Option<string>)

  const Initial := ModalState(None, true, None)

  /** The effect firing for a (possibly null) product, and the two completions. */
  datatype Event = ProductChanged(product: Option<Product>) | Resolved(result: Analysis) | Rejected

  /** While a request is in flight no error is shown. */
  predicate Consistent(s: ModalState)
  {
    s.loading ==> s.error == None
  }

  function Step(s: ModalState, e: Event): (r: ModalState)
    ensures e == ProductChanged(None) ==> r == s
    ensures e.ProductChanged? && e.product.Some? ==>
      r.loading && r.error == None && r.analysis == s.analysis
    ensures e.Resolved? ==> r.analysis == Some(e.result) && !r.loading && r.error == s.error
    ensures e.Rejected? ==> r.error == Some(FailureText) && !r.loading && r.analysis == s.analysis
    ensures Consistent(s) ==> Consistent(r)
  {
    match e
    case ProductChanged(p) => if p.Some? then s.(loading := true, error := None) else s
    case Resolved(a) => s.(analysis := Some(a), loading := false)
    case Rejected => s.(error := Some(FailureText), loading := false)
  }

  function Run(s: ModalState, events: seq<Event>): ModalState
    decreases |events|
  {
    if events == [] then s else Run(Step(s, events[0]), events[1..])
  }

  /** Across any sequence of events from the initial state, loading implies no error. */
  lemma {:induction false} RunKeepsConsistent(s: ModalState, events: seq<Event>)
    requires Consistent(s)
    ensures Consistent(Run(s, events))
    decreases |events|
  {
    if events != [] {
      RunKeepsConsistent(Step(s, events[0]), events[1..]);
    }
  }

  lemma InitialConsistent()
    ensures Consistent(Initial) && Initial.loading && Initial.analysis == None
  {
  }

  datatype View = Hidden | Shown(spinner: bool, errorText: Option<string>, panel: Option<Analysis>)

  /**
   * A null product renders nothing. Otherwise the spinner shows while
   * loading, the error when set, and the analysis panel only when there
   * is an analysis, nothing is loading and there is no error.
   */
  function Render(product: Option<Product>, s: ModalState): (v: View)
    ensures v.Hidden? <==> product.None?
    ensures v.Shown? ==> (v.spinner <==> s.loading) && v.errorText == s.error
    ensures v.Shown? ==> (v.panel.Some? <==> s.analysis.Some? && !s.loading && s.error.None?)
    ensures v.Shown? && v.panel.Some? ==> v.panel == s.analysis && !v.spinner && v.errorText.None?
    ensures v.Shown? && Consistent(s) ==> !(v.spinner && v.errorText.Some?)
  {
    if product.None? then Hidden
    else Shown(s.loading, s.error,
               if s.analysis.Some? && !s.loading && s.error.None? then s.analysis else None)
  }

  /**
   * A completion for an earlier product lands after the switch to a new
   * one: the new product's panel shows the earlier product's analysis.
   */
  lemma LateCompletionOverwrites(first: Product, second: Product, earlier: Analysis)
    ensures var s := Run(Initial, [ProductChanged(Some(first)), ProductChanged(Some(second)), Resolved(earlier)]);
      Render(Some(second), s) == Shown(false, None, Some(earlier))
  {
    var events := [ProductChanged(Some(first)), ProductChanged(Some(second)), Resolved(earlier)];
    var s1 := Step(Initial, events[0]);
    var s2 := Step(s1, events[1]);
    assert events[1..] == [ProductChanged(Some(second)), Resolved(earlier)];
    assert events[1..][1..] == [Resolved(earlier)];
    assert Run(s2, [Resolved(earlier)]) == Step(s2, Resolved(earlier));
    assert Run(Initial, events) == Run(s1, events[1..]) == Run(s2, [Resolved(earlier)]);
  }

  /** The three state slots of the component. */
  class Modal {
    var analysis: Option<Analysis>
    var loading: bool
    var error: Option<string>

    function State(): ModalState
      reads this
    {
      ModalState(analysis, loading, error)
    }

    constructor()
      ensures State() == Initial
    {
      analysis, loading, error := None, true, None;
    }

    /** The effect for a new `product` prop; it starts a request exactly when the product is not null. */
    method OnProductChanged(product: Option<Product>) returns (requested: bool)
      modifies this
      ensures State() == Step(old(State()), ProductChanged(product))
      ensures requested <==> product.Some?
    {
      requested := product.Some?;
      if product.Some? {
        loading := true;
        error := None;
      }
    }

    method OnResolved(result: Analysis)
      modifies this
      ensures State() == Step(old(State()), Resolved(result))
    {
      analysis := Some(result);
      loading := false;
    }

    method OnRejected()
      modifies this
      ensures State() == Step(old(State()), Rejected)
    {
      error := Some(FailureText);
      loading := false;
    }
  }
}
