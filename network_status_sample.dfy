/**
 * The path-monitor variant of the network status component: the set of
 * interfaces a network path uses is classified into one of five interface
 * categories, and the path-update handler publishes that category.
 */
module NetworkStatusSample {
  import opened Wrappers

  /** The kinds of interface a network path can report using. */
  datatype NWInterfaceType =
    | OtherInterface
    | WifiInterface
    | CellularInterface
    | WiredEthernetInterface
    | LoopbackInterface

  /** A network path as far as the classifier looks at it: the interfaces it uses. */
  datatype NWPath = NWPath(interfaces: set<NWInterfaceType>)

  /** The published interface category. */
  datatype InterfaceType = Unknown | Wifi | Cellular | Ethernet | Localhost

  predicate UsesInterfaceType(path: NWPath, kind: NWInterfaceType)
  {
    kind in path.interfaces
  }

  /** The interface kinds the classifier recognises. */
  const Recognised: set<NWInterfaceType> :=
    {WifiInterface, CellularInterface, LoopbackInterface, WiredEthernetInterface}

  /**
   * The classifier. Each ensures states one clause of the priority order
   * Wi-Fi > cellular > loopback > wired Ethernet, with `Unknown` as the fallback.
   */
  function CheckInterfaceType(path: NWPath): (r: InterfaceType)
    ensures UsesInterfaceType(path, WifiInterface) <==> r == Wifi
    ensures r == Cellular <==>
              !UsesInterfaceType(path, WifiInterface) && UsesInterfaceType(path, CellularInterface)
    ensures r == Localhost <==>
              !UsesInterfaceType(path, WifiInterface) && !UsesInterfaceType(path, CellularInterface)
              && UsesInterfaceType(path, LoopbackInterface)
    ensures r == Ethernet <==>
              !UsesInterfaceType(path, WifiInterface) && !UsesInterfaceType(path, CellularInterface)
              && !UsesInterfaceType(path, LoopbackInterface) && UsesInterfaceType(path, WiredEthernetInterface)
    ensures r == Unknown <==>
              !UsesInterfaceType(path, WifiInterface) && !UsesInterfaceType(path, CellularInterface)
              && !UsesInterfaceType(path, LoopbackInterface) && !UsesInterfaceType(path, WiredEthernetInterface)
  {
    if UsesInterfaceType(path, WifiInterface) then
      Wifi
    else if UsesInterfaceType(path, CellularInterface) then
      Cellular
    else if UsesInterfaceType(path, LoopbackInterface) then
      Localhost
    else if UsesInterfaceType(path, WiredEthernetInterface) then
      Ethernet
    else
      Unknown
  }

  /** The priority order as data, highest priority first, and the category each kind maps to. */
  const Priority: seq<NWInterfaceType> :=
    [WifiInterface, CellularInterface, LoopbackInterface, WiredEthernetInterface]
  const Categories: seq<InterfaceType> := [Wifi, Cellular, Localhost, Ethernet]

  /**
   * Reference definition of "the highest-priority interface in use": the index
   * of the first kind of `order` that the path uses, or `|order|` if it uses none.
   */
  function FirstUsedIndex(order: seq<NWInterfaceType>, used: set<NWInterfaceType>): (i: nat)
    ensures i <= |order|
    ensures forall j :: 0 <= j < i ==> order[j] !in used
    ensures i < |order| ==> order[i] in used
  {
    if |order| == 0 then 0
    else if order[0] in used then 0
    else 1 + FirstUsedIndex(order[1..], used)
  }

  /** The category for a priority index; any index past the list means `Unknown`. */
  function CategoryAt(i: nat): InterfaceType
  {
    if i < |Categories| then Categories[i] else Unknown
  }

  /** The if-chain agrees with "the category of the highest-priority interface in use". */
  lemma ClassifierFollowsPriority(path: NWPath)
    ensures CheckInterfaceType(path) == CategoryAt(FirstUsedIndex(Priority, path.interfaces))
  {
    var used := path.interfaces;
    var i := FirstUsedIndex(Priority, used);
    assert Priority[0] == WifiInterface && Priority[1] == CellularInterface;
    assert Priority[2] == LoopbackInterface && Priority[3] == WiredEthernetInterface;
    if i == 0 {
      assert WifiInterface in used;
    } else if i == 1 {
      assert WifiInterface !in used && CellularInterface in used;
    } else if i == 2 {
      assert WifiInterface !in used && CellularInterface !in used && LoopbackInterface in used;
    } else if i == 3 {
      assert Priority[0] !in used && Priority[1] !in used && Priority[2] !in used;
    } else {
      assert Priority[0] !in used && Priority[1] !in used && Priority[2] !in used && Priority[3] !in used;
    }
  }

  /** Interfaces the classifier does not recognise never change its answer. */
  lemma ClassifierSeesOnlyRecognised(p: NWPath, q: NWPath)
    requires p.interfaces * Recognised == q.interfaces * Recognised
    ensures CheckInterfaceType(p) == CheckInterfaceType(q)
  {
    forall k | k in Recognised
      ensures UsesInterfaceType(p, k) <==> UsesInterfaceType(q, k)
    {
      assert k in p.interfaces <==> k in p.interfaces * Recognised;
      assert k in q.interfaces <==> k in q.interfaces * Recognised;
    }
  }

  /**
   * The observable object. `interfaceType` is a published property: every
   * assignment to it is announced to the views, so `published` logs the value
   * of each announcement, in order.
   */
  class NetworkStatus {
    var interfaceType: Option<InterfaceType>
    var published: seq<InterfaceType>

    /** The published property holds the value of its last announcement, or nil before any. */
    ghost predicate Valid()
      reads this
    {
      interfaceType == if |published| == 0 then None else Some(published[|published| - 1])
    }

    /** No category is published before the first path update. */
    constructor ()
      ensures interfaceType == None && published == []
      ensures Valid()
    {
      interfaceType := None;
      published := [];
    }

    /**
     * The path-update handler installed by the initialiser: every update,
     * repeated or not, stores the classifier's output for the new path and
     * announces it once.
     */
    method PathUpdateHandler(path: NWPath)
      modifies this
      ensures interfaceType == Some(CheckInterfaceType(path))
      ensures published == old(published) + [CheckInterfaceType(path)]
      ensures Valid()
    {
      interfaceType := Some(CheckInterfaceType(path));
      published := published + [CheckInterfaceType(path)];
    }
  }
}
