/**
 * Connector classification of the shared MEP utilities (Shared/MyUtils.cs):
 * `GetConnectorManager`'s element-type check and the `Cons` constructor,
 * which counts an element's piping connectors, sorts them into the Primary,
 * Secondary and Tertiary slots, and for a transition fitting picks the larger
 * and the smaller end.
 */
module Connectors {
  import opened Wrappers

  /**
   * A connector, reduced to what `Cons` reads. `diameter` is twice the
   * connector's radius rounded to 3 decimals, as an integer in thousandths.
   */
  datatype Connector = Connector(inPipingDomain: bool, isPrimary: bool, isSecondary: bool, diameter: int)

  /** What the element is to the host: a pipe or duct, a family instance, or anything else. */
  datatype ElementKind =
    | MepCurve
    | FamilyInstance(isPipeFitting: bool, isTransition: bool)  // category pipe fitting; part type "Transition"
    | OtherElement

  /** An element with the connectors its connector manager enumerates, in that order. */
  datatype Element = Element(kind: ElementKind, connectors: seq<Connector>)

  /** The exceptions the constructor lets escape. */
  datatype ConsError =
    | NotMepElement            // ArgumentException from GetConnectorManager
    | MissingSecondary(count: nat)  // more than one piping connector and no Secondary
    | NullConnector            // a transition fitting without a Primary or a Secondary to measure

  datatype Slot = PrimarySlot | SecondarySlot | TertiarySlot

  /** The slot the `if / else if` chain puts a connector in; None when it is skipped as non-piping. */
  function SlotOf(c: Connector): (r: Option<Slot>)
    ensures r.None? <==> !c.inPipingDomain
    ensures c.inPipingDomain && c.isPrimary ==> r == Some(PrimarySlot)
    ensures c.inPipingDomain && !c.isPrimary && !c.isSecondary ==> r == Some(TertiarySlot)
  {
    if !c.inPipingDomain then None
    else if c.isPrimary then Some(PrimarySlot)
    else if c.isSecondary then Some(SecondarySlot)
    // the chain's last test (neither primary nor secondary) always holds here
    else Some(TertiarySlot)
  }

  /** Number of connectors in the piping domain. */
  function PipingCount(cs: seq<Connector>): (n: nat)
    ensures n <= |cs|
  {
    if cs == [] then 0
    else PipingCount(cs[..|cs| - 1]) + (if cs[|cs| - 1].inPipingDomain then 1 else 0)
  }

  /** Positions of the piping connectors. */
  function PipingPositions(cs: seq<Connector>): set<nat>
  {
    set i: nat | i < |cs| && cs[i].inPipingDomain
  }

  /** The count is the number of piping connectors, whatever their order. */
  lemma {:induction false} PipingCountIsNumberOfPiping(cs: seq<Connector>)
    ensures PipingCount(cs) == |PipingPositions(cs)|
  {
    if cs != [] {
      var init := cs[..|cs| - 1];
      PipingCountIsNumberOfPiping(init);
      var last: nat := |cs| - 1;
      if cs[last].inPipingDomain {
        assert PipingPositions(cs) == PipingPositions(init) + {last};
      } else {
        assert PipingPositions(cs) == PipingPositions(init);
      }
    }
  }

  /** The position of the last connector sorted into `slot`: later connectors overwrite earlier ones. */
  function LastInSlot(cs: seq<Connector>, slot: Slot): (r: Option<nat>)
    ensures r.None? <==> forall j :: 0 <= j < |cs| ==> SlotOf(cs[j]) != Some(slot)
    ensures r.Some? ==> (r.value < |cs| && SlotOf(cs[r.value]) == Some(slot)
      && forall j :: r.value < j < |cs| ==> SlotOf(cs[j]) != Some(slot))
  {
    if cs == [] then None
    else if SlotOf(cs[|cs| - 1]) == Some(slot) then Some(|cs| - 1)
    else LastInSlot(cs[..|cs| - 1], slot)
  }

  /** Extending the walk by one connector: it takes its slot, if any, and adds to the count if piping. */
  lemma PrefixStep(cs: seq<Connector>, i: nat)
    requires i < |cs|
    ensures forall slot :: (LastInSlot(cs[..i + 1], slot) ==
      if SlotOf(cs[i]) == Some(slot) then Some(i) else LastInSlot(cs[..i], slot))
    ensures PipingCount(cs[..i + 1]) == PipingCount(cs[..i]) + if cs[i].inPipingDomain then 1 else 0
  {
    assert cs[..i + 1][..i] == cs[..i];
  }

  /** The observable fields of a `Cons`: slots hold positions in the element's connector list. */
  datatype ConsView = ConsView(
    primary: Option<nat>, secondary: Option<nat>, tertiary: Option<nat>,
    count: nat, largest: Option<nat>, smallest: Option<nat>)

  predicate IsTransitionFitting(k: ElementKind)
  {
    k.FamilyInstance? && k.isPipeFitting && k.isTransition
  }

  /**
   * The connector list of an MEP curve or of a family instance's MEP model;
   * any other element is an argument error.
   */
  function GetConnectorManager(e: Element): (r: Result<seq<Connector>, ConsError>)
    ensures r.Failure? <==> !(e.kind.MepCurve? || e.kind.FamilyInstance?)
    ensures r.Failure? ==> r.error == NotMepElement
    ensures r.Success? ==> r.value == e.connectors
  {
    if e.kind.OtherElement? then Failure(NotMepElement) else Success(e.connectors)
  }

  /** What the constructor produces for an element, or the exception it throws. */
  function Classify(e: Element): (r: Result<ConsView, ConsError>)
    ensures r.Success? ==> r.value.count <= |e.connectors|
    ensures r.Success? && r.value.count > 1 ==> r.value.secondary.Some?
    ensures r.Success? ==> ((r.value.largest.Some? <==> IsTransitionFitting(e.kind))
      && (r.value.smallest.Some? <==> IsTransitionFitting(e.kind)))
    ensures r.Success? && r.value.largest.Some? ==>
      ((r.value.largest == r.value.primary || r.value.largest == r.value.secondary)
      && (r.value.smallest == r.value.primary || r.value.smallest == r.value.secondary))
  {
    var cmgr := GetConnectorManager(e);
    if cmgr.Failure? then Failure(cmgr.error)
    else
      var cs := cmgr.value;
      var p := LastInSlot(cs, PrimarySlot);
      var s := LastInSlot(cs, SecondarySlot);
      var t := LastInSlot(cs, TertiarySlot);
      var n := PipingCount(cs);
      if n > 1 && s.None? then Failure(MissingSecondary(n))
      else if !IsTransitionFitting(e.kind) then Success(ConsView(p, s, t, n, None, None))
      else if p.None? || s.None? then Failure(NullConnector)
      else
        var pd, sd := cs[p.value].diameter, cs[s.value].diameter;
        Success(ConsView(p, s, t, n, if pd > sd then p else s, if pd < sd then p else s))
  }

  /** The connector classification of one element, with fields set by its constructor only. */
  class Cons {
    var primary: Option<nat>
    var secondary: Option<nat>
    var tertiary: Option<nat>
    var count: nat
    var largest: Option<nat>
    var smallest: Option<nat>

    function View(): ConsView
      reads this
    {
      ConsView(primary, secondary, tertiary, count, largest, smallest)
    }

    /** The property initialisers: every slot null, count zero. */
    constructor Init()
      ensures View() == ConsView(None, None, None, 0, None, None)
    {
      primary, secondary, tertiary := None, None, None;
      count := 0;
      largest, smallest := None, None;
    }

    /**
     * `new Cons(element)`: reject an element that is not an MEP curve or a
     * family instance, walk its connectors, check for a Secondary, and for a
     * transition fitting compare the two ends.
     */
    static method New(e: Element) returns (r: Result<Cons, ConsError>)
      ensures r.Failure? <==> Classify(e).Failure?
      ensures r.Failure? ==> r.error == Classify(e).error
      ensures r.Success? ==> fresh(r.value) && r.value.View() == Classify(e).value
    {
      var cmgr := GetConnectorManager(e);
      if cmgr.Failure? {
        return Failure(cmgr.error);
      }
      var cons := new Cons.Init();
      var cs := cmgr.value;
      for i := 0 to |cs|
        invariant cons.View() == ConsView(
          LastInSlot(cs[..i], PrimarySlot), LastInSlot(cs[..i], SecondarySlot), LastInSlot(cs[..i], TertiarySlot),
          PipingCount(cs[..i]), None, None)
      {
        PrefixStep(cs, i);
        var c := cs[i];
        if !c.inPipingDomain {
          continue;
        }
        cons.count := cons.count + 1;
        if c.isPrimary {
          cons.primary := Some(i);
        } else if c.isSecondary {
          cons.secondary := Some(i);
        } else if !c.isPrimary && !c.isSecondary {
          cons.tertiary := Some(i);
        }
      }
      assert cs[..|cs|] == cs;
      if cons.count > 1 && cons.secondary.None? {
        return Failure(MissingSecondary(cons.count));
      }
      if e.kind.FamilyInstance? && e.kind.isPipeFitting && e.kind.isTransition {
        if cons.primary.None? || cons.secondary.None? {
          return Failure(NullConnector);
        }
        var primDia := cs[cons.primary.value].diameter;
        var secDia := cs[cons.secondary.value].diameter;
        cons.largest := if primDia > secDia then cons.primary else cons.secondary;
        cons.smallest := if primDia < secDia then cons.primary else cons.secondary;
      }
      return Success(cons);
    }
  }

  /** The slot a connector belongs in, read directly off its flags. */
  predicate InSlot(c: Connector, slot: Slot)
  {
    c.inPipingDomain &&
    match slot
    case PrimarySlot => c.isPrimary
    case SecondarySlot => !c.isPrimary && c.isSecondary
    case TertiarySlot => !c.isPrimary && !c.isSecondary
  }

  /**
   * The `if / else if` chain agrees with the flags: a connector flagged both
   * primary and secondary is Primary only, one flagged neither is Tertiary,
   * and every piping connector lands in exactly one slot.
   */
  lemma SlotOfMatchesFlags(c: Connector, slot: Slot)
    ensures SlotOf(c) == Some(slot) <==> InSlot(c, slot)
    ensures c.inPipingDomain <==> exists s :: InSlot(c, s)
    ensures c.isPrimary && c.isSecondary ==> (InSlot(c, PrimarySlot) <==> c.inPipingDomain) && !InSlot(c, SecondarySlot)
  {
    if c.inPipingDomain {
      assert InSlot(c, SlotOf(c).value);
    }
  }

  /** A successful classification counts exactly the piping connectors. */
  lemma CountIsPipingConnectors(e: Element)
    requires Classify(e).Success?
    ensures Classify(e).value.count == |PipingPositions(e.connectors)|
  {
    PipingCountIsNumberOfPiping(e.connectors);
  }

  /**
   * Each slot holds the last connector, in iteration order, whose flags put it
   * there, and is null when no connector does; a non-piping connector is in no slot.
   */
  lemma SlotsHoldLastOfTheirKind(e: Element, slot: Slot)
    requires Classify(e).Success?
    ensures var v := Classify(e).value;
      var held := match slot case PrimarySlot => v.primary case SecondarySlot => v.secondary case TertiarySlot => v.tertiary;
      var cs := e.connectors;
      (held.None? <==> forall j :: 0 <= j < |cs| ==> !InSlot(cs[j], slot)) &&
      (held.Some? ==> (held.value < |cs| && InSlot(cs[held.value], slot) && cs[held.value].inPipingDomain &&
        forall j :: held.value < j < |cs| ==> !InSlot(cs[j], slot)))
  {
  }

  /** The element-type check comes first: only an element that is neither kind yields the argument error. */
  lemma WrongElementTypeRejected(e: Element)
    ensures Classify(e) == Failure(NotMepElement) <==> !(e.kind.MepCurve? || e.kind.FamilyInstance?)
  {
  }

  /**
   * Construction fails for a missing Secondary exactly when the element is an
   * MEP element with more than one piping connector and none flagged
   * secondary only; the error reports the count.
   */
  lemma MissingSecondaryExactly(e: Element)
    ensures var cs := e.connectors;
      (Classify(e).Failure? && Classify(e).error.MissingSecondary?) <==>
      (!e.kind.OtherElement? && |PipingPositions(cs)| > 1 && forall j :: 0 <= j < |cs| ==> !InSlot(cs[j], SecondarySlot))
    ensures Classify(e).Failure? && Classify(e).error.MissingSecondary? ==>
      Classify(e).error.count == |PipingPositions(e.connectors)|
  {
    PipingCountIsNumberOfPiping(e.connectors);
    forall c: Connector {
      SlotOfMatchesFlags(c, SecondarySlot);
    }
  }

  /** With at most one piping connector the Secondary check never fires. */
  lemma FewPipingNeverMissSecondary(e: Element)
    requires |PipingPositions(e.connectors)| <= 1
    ensures !(Classify(e).Failure? && Classify(e).error.MissingSecondary?)
  {
    MissingSecondaryExactly(e);
  }

  /**
   * Only a transition pipe fitting sets Largest and Smallest; there they are the
   * Primary or the Secondary end by strict diameter comparison, equal
   * diameters giving Secondary for both.
   */
  lemma LargestAndSmallest(e: Element)
    requires Classify(e).Success?
    ensures var v := Classify(e).value; var cs := e.connectors;
      (!IsTransitionFitting(e.kind) ==> v.largest.None? && v.smallest.None?) &&
      (IsTransitionFitting(e.kind) ==>
        v.primary.Some? && v.secondary.Some? && v.primary.value < |cs| && v.secondary.value < |cs| &&
        var pd := cs[v.primary.value].diameter; var sd := cs[v.secondary.value].diameter;
        (pd > sd ==> v.largest == v.primary && v.smallest == v.secondary) &&
        (pd < sd ==> v.largest == v.secondary && v.smallest == v.primary) &&
        (pd == sd ==> v.largest == v.secondary && v.smallest == v.secondary))
  {
  }

  /**
   * A transition fitting that passes the Secondary check but lacks a Primary
   * or a Secondary fails when its diameters are read.
   */
  lemma NullConnectorExactly(e: Element)
    ensures var cs := e.connectors;
      var noPrimary := forall j :: 0 <= j < |cs| ==> !InSlot(cs[j], PrimarySlot);
      var noSecondary := forall j :: 0 <= j < |cs| ==> !InSlot(cs[j], SecondarySlot);
      Classify(e) == Failure(NullConnector) <==>
      (IsTransitionFitting(e.kind) && (noPrimary || noSecondary) && !(|PipingPositions(cs)| > 1 && noSecondary))
  {
    PipingCountIsNumberOfPiping(e.connectors);
    forall c: Connector, slot: Slot {
      SlotOfMatchesFlags(c, slot);
    }
  }
}
