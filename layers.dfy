/** Collision layers of the physics layer: the two object layers, their mapping onto
    broad-phase layers, and the two predicates the simulation asks before testing a pair. */
module Layers {

  /** An object layer is a 16-bit unsigned integer in the simulation library. */
  newtype ObjectLayer = x: int | 0 <= x < 0x1_0000

  newtype uint8 = x: int | 0 <= x < 0x100

  /** A broad-phase layer wraps an 8-bit value; two are equal when their values are. */
  datatype BroadPhaseLayer = BroadPhaseLayer(value: uint8)

  const NonMoving: ObjectLayer := 0
  const Moving: ObjectLayer := 1
  const NumLayers: ObjectLayer := 2

  const BroadPhaseNonMoving: BroadPhaseLayer := BroadPhaseLayer(0)
  const BroadPhaseMoving: BroadPhaseLayer := BroadPhaseLayer(1)
  const NumBroadPhaseLayers: nat := 2

  /** A filter's answer, and whether it went through the `JPH_ASSERT(false)` branch to get it. */
  datatype Verdict = Verdict(collide: bool, assertFailed: bool)

  /** The layers the filters have a case for. */
  predicate IsKnown(layer: ObjectLayer) {
    layer < NumLayers
  }

  /** Object-vs-object filter: non-moving collides only with moving, moving with everything,
      and any other first layer fails the assertion and answers false. */
  function ObjectPairShouldCollide(object1: ObjectLayer, object2: ObjectLayer): (r: Verdict)
    ensures r.assertFailed <==> !IsKnown(object1)
    ensures r.assertFailed ==> !r.collide
  {
    if object1 == NonMoving then Verdict(object2 == Moving, false)
    else if object1 == Moving then Verdict(true, false)
    else Verdict(false, true)
  }

  /** Object-vs-broad-phase filter: the same rule, asked of the broad-phase layer the
      second object lives in. */
  function ObjectVsBroadPhaseShouldCollide(layer1: ObjectLayer, layer2: BroadPhaseLayer): (r: Verdict)
    ensures r.assertFailed <==> !IsKnown(layer1)
    ensures r.assertFailed ==> !r.collide
  {
    if layer1 == NonMoving then Verdict(layer2 == BroadPhaseMoving, false)
    else if layer1 == Moving then Verdict(true, false)
    else Verdict(false, true)
  }

  /** The object-to-broad-phase table the layer interface is filled with. */
  function ObjectToBroadPhase(layer: ObjectLayer): (bp: BroadPhaseLayer)
    requires IsKnown(layer)
    ensures bp.value as int == layer as int
    ensures (bp.value as int) < NumBroadPhaseLayers
  {
    if layer == NonMoving then BroadPhaseNonMoving else BroadPhaseMoving
  }

  /** The broad-phase layer interface: a table from object layer to broad-phase layer,
      filled once at construction and only read afterwards. */
  class BPLayerInterface {
    const objectToBroadPhase: array<BroadPhaseLayer>

    ghost predicate Valid()
      reads this, objectToBroadPhase
    {
      objectToBroadPhase[..] == [ObjectToBroadPhase(NonMoving), ObjectToBroadPhase(Moving)]
    }

    constructor ()
      ensures Valid() && fresh(objectToBroadPhase)
      ensures objectToBroadPhase.Length == NumLayers as int
    {
      var table := new BroadPhaseLayer[NumLayers as int];
      table[NonMoving as int] := BroadPhaseNonMoving;
      table[Moving as int] := BroadPhaseMoving;
      objectToBroadPhase := table;
    }

    /** The number of broad-phase layers: two, exactly the layers the table maps to. */
    function GetNumBroadPhaseLayers(): (n: nat)
      ensures n == NumBroadPhaseLayers
      ensures forall layer: ObjectLayer :: IsKnown(layer) ==> (ObjectToBroadPhase(layer).value as int) < n
      ensures forall bp: BroadPhaseLayer :: (bp.value as int) < n ==>
        bp == ObjectToBroadPhase(NonMoving) || bp == ObjectToBroadPhase(Moving)
    {
      NumBroadPhaseLayers
    }

    /** The broad-phase layer of a known object layer; the source asserts the layer is below
        the number of layers before indexing its table. */
    function GetBroadPhaseLayer(layer: ObjectLayer): (bp: BroadPhaseLayer)
      reads this, objectToBroadPhase
      requires Valid()
      requires IsKnown(layer)
      ensures bp == ObjectToBroadPhase(layer)
      ensures bp.value as int == layer as int
    {
      objectToBroadPhase[layer as int]
    }
  }

  /** The object-pair table: non-moving pairs are skipped, every pair with a moving object is tested. */
  lemma ObjectPairTruthTable()
    ensures !ObjectPairShouldCollide(NonMoving, NonMoving).collide
    ensures ObjectPairShouldCollide(NonMoving, Moving).collide
    ensures forall other: ObjectLayer :: ObjectPairShouldCollide(Moving, other).collide
  {
  }

  /** On the known layers the object-pair filter does not depend on argument order. */
  lemma ObjectPairSymmetric(a: ObjectLayer, b: ObjectLayer)
    requires IsKnown(a) && IsKnown(b)
    ensures ObjectPairShouldCollide(a, b) == ObjectPairShouldCollide(b, a)
  {
  }

  /** Only the first layer is checked: an unknown first layer is refused with a failed
      assertion, while an unknown second layer is answered without one. */
  lemma OnlyFirstLayerChecked(a: ObjectLayer, b: ObjectLayer, bp: BroadPhaseLayer)
    ensures !IsKnown(a) ==> ObjectPairShouldCollide(a, b) == Verdict(false, true)
    ensures !IsKnown(a) ==> ObjectVsBroadPhaseShouldCollide(a, bp) == Verdict(false, true)
    ensures b != Moving ==> ObjectPairShouldCollide(NonMoving, b) == Verdict(false, false)
    ensures bp != BroadPhaseMoving ==> ObjectVsBroadPhaseShouldCollide(NonMoving, bp) == Verdict(false, false)
  {
  }

  /** Outside the known layers the object-pair filter is not symmetric: a moving object
      accepts an unknown layer, which in turn refuses it. */
  lemma ObjectPairAsymmetricOffTable()
    ensures exists a: ObjectLayer, b: ObjectLayer ::
      ObjectPairShouldCollide(a, b).collide != ObjectPairShouldCollide(b, a).collide
  {
    var unknown: ObjectLayer := NumLayers;
    assert ObjectPairShouldCollide(Moving, unknown).collide;
    assert !ObjectPairShouldCollide(unknown, Moving).collide;
  }

  /** The two filters agree through the table: asking about the broad-phase layer of a known
      object layer gives the answer the object-pair filter gives for that layer. */
  lemma FiltersAgree(a: ObjectLayer, b: ObjectLayer)
    requires IsKnown(b)
    ensures ObjectVsBroadPhaseShouldCollide(a, ObjectToBroadPhase(b)) == ObjectPairShouldCollide(a, b)
  {
  }

  /** The same agreement through a constructed layer interface. */
  lemma FiltersAgreeThroughInterface(bpInterface: BPLayerInterface, a: ObjectLayer, b: ObjectLayer)
    requires bpInterface.Valid() && IsKnown(b)
    ensures ObjectVsBroadPhaseShouldCollide(a, bpInterface.GetBroadPhaseLayer(b)) == ObjectPairShouldCollide(a, b)
  {
  }
}
