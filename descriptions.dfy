/**
  Convex contact descriptions (`Contact1` .. `Contact4`) and their storage in a type batch.

  A type batch keeps its constraints' prestep data in one raw buffer of floats, grouped in
  bundles of W constraints. A bundle is a structure of arrays: each scalar field of
  `ContactNPrestepData` is a row of W floats, one per lane, and the rows follow the struct's
  field order. A `Vector3Wide` field is three rows (X, Y, Z) and `SpringSettingsWide` is S rows.
  So the float for field row `slot` of lane `inner` of bundle `bundle` sits at
  `(bundle * F + slot) * W + inner`, F being the number of rows of the N-contact layout.

  `ApplyDescription` writes one description into one lane of one bundle, in place;
  `BuildDescription` reads one lane back into a description. In the engine, Contact1..3 read
  through the four-contact layout; `BuildDescriptionAsWritten` models that read and the lemmas
  at the end of the module show what it returns.
 */
module Descriptions {
  import opened Vectors
  import opened TypeProcessors

  /** `ConstraintContactData`: one contact's offset from body A and its penetration depth. */
  datatype ContactData = ContactData(offsetA: Vec3, penetrationDepth: real)

  /** `PairMaterialProperties`: the material the collision pipeline hands over. */
  datatype Material = Material(frictionCoefficient: real, springSettings: seq<real>, maximumRecoveryVelocity: real)

  /** `ContactN` for N = |contacts|. */
  datatype Description = Description(
    contacts: seq<ContactData>,
    offsetB: Vec3,
    frictionCoefficient: real,
    normal: Vec3,
    springSettings: seq<real>,
    maximumRecoveryVelocity: real)

  /**
    The layout of `ContactNPrestepData` for N = contactCount, with S = springWidth rows of spring
    settings and W = laneCount lanes per row.
   */
  datatype Layout = Layout(contactCount: nat, springWidth: nat, laneCount: nat) {

    predicate Valid() {
      1 <= contactCount <= 4 && laneCount >= 1
    }

    /** Rows per bundle: 3N offsets, 3 + 1 + 3 shared rows, S spring rows, 1 recovery row, N depths. */
    function SlotCount(): nat {
      4 * contactCount + 8 + springWidth
    }

    // Row of each field, in the order the struct declares them.
    function OffsetASlot(j: nat, c: nat): nat { 3 * j + c }
    function OffsetBSlot(c: nat): nat { 3 * contactCount + c }
    function FrictionSlot(): nat { 3 * contactCount + 3 }
    function NormalSlot(c: nat): nat { 3 * contactCount + 4 + c }
    function SpringSlot(k: nat): nat { 3 * contactCount + 7 + k }
    function MaximumRecoveryVelocitySlot(): nat { 3 * contactCount + 7 + springWidth }
    function DepthSlot(j: nat): nat { 3 * contactCount + 8 + springWidth + j }

    /** Position in the raw buffer of row `slot`, lane `inner`, of bundle `bundle`. */
    function Address(bundle: nat, slot: nat, inner: nat): (a: nat)
      ensures slot < SlotCount() && inner < laneCount ==>
        bundle * SlotCount() * laneCount <= a < (bundle + 1) * SlotCount() * laneCount
    {
      Position(bundle, SlotCount(), slot, laneCount, inner)
    }

    /** Whether buffer position `a` belongs to lane `inner` of bundle `bundle`. */
    predicate InLane(bundle: nat, inner: nat, a: nat)
      requires Valid()
    {
      a % laneCount == inner && bundle * SlotCount() <= a / laneCount < bundle * SlotCount() + SlotCount()
    }

    /** The same layout with four contacts: what Contact1..3 read their descriptions through. */
    function FourContact(): Layout {
      Layout(4, springWidth, laneCount)
    }
  }

  /** The description has the shape of the layout: N contacts and S spring values. */
  predicate Fits(layout: Layout, d: Description) {
    |d.contacts| == layout.contactCount && |d.springSettings| == layout.springWidth
  }

  /** The buffer holds the whole bundle and the lane exists. */
  predicate BundleInRange(layout: Layout, length: nat, bundle: nat, inner: nat) {
    layout.Valid() && inner < layout.laneCount && (bundle + 1) * layout.SlotCount() * layout.laneCount <= length
  }

  // ---------------------------------------------------------------------------------------
  // One lane of the prestep data: the description's values in struct field order.

  function Offsets(contacts: seq<ContactData>): (r: seq<real>)
    ensures |r| == 3 * |contacts|
  {
    if |contacts| == 0 then [] else Components(contacts[0].offsetA) + Offsets(contacts[1..])
  }

  function Depths(contacts: seq<ContactData>): seq<real> {
    seq(|contacts|, j requires 0 <= j < |contacts| => contacts[j].penetrationDepth)
  }

  /** The rows every contact shares: OffsetB, friction, normal, spring settings, recovery velocity. */
  function SharedRows(d: Description): (rows: seq<real>)
    ensures |rows| == 8 + |d.springSettings|
  {
    Components(d.offsetB) + [d.frictionCoefficient] + Components(d.normal)
      + d.springSettings + [d.maximumRecoveryVelocity]
  }

  /** The values of one lane, row by row, as `ApplyDescription` stores them. */
  function LaneImage(d: Description): (lane: seq<real>)
    ensures |lane| == 4 * |d.contacts| + 8 + |d.springSettings|
  {
    Offsets(d.contacts) + SharedRows(d) + Depths(d.contacts)
  }

  /** Reads a description back out of one lane's values. */
  function Decode(layout: Layout, lane: seq<real>): Description
    requires |lane| == layout.SlotCount()
  {
    var n := layout.contactCount;
    Description(
      seq(n, j requires 0 <= j < n =>
        ContactData(Vec3(lane[layout.OffsetASlot(j, 0)], lane[layout.OffsetASlot(j, 1)], lane[layout.OffsetASlot(j, 2)]),
                    lane[layout.DepthSlot(j)])),
      Vec3(lane[layout.OffsetBSlot(0)], lane[layout.OffsetBSlot(1)], lane[layout.OffsetBSlot(2)]),
      lane[layout.FrictionSlot()],
      Vec3(lane[layout.NormalSlot(0)], lane[layout.NormalSlot(1)], lane[layout.NormalSlot(2)]),
      seq(layout.springWidth, k requires 0 <= k < layout.springWidth => lane[layout.SpringSlot(k)]),
      lane[layout.MaximumRecoveryVelocitySlot()])
  }

  lemma {:induction false} OffsetsAt(contacts: seq<ContactData>)
    ensures |Offsets(contacts)| == 3 * |contacts|
    ensures forall j, c :: 0 <= j < |contacts| && 0 <= c < 3 ==>
      Offsets(contacts)[3 * j + c] == Components(contacts[j].offsetA)[c]
  {
    if |contacts| > 0 {
      OffsetsAt(contacts[1..]);
      forall j, c | 0 <= j < |contacts| && 0 <= c < 3
        ensures Offsets(contacts)[3 * j + c] == Components(contacts[j].offsetA)[c]
      {
        if j > 0 {
          assert Offsets(contacts)[3 * j + c] == Offsets(contacts[1..])[3 * (j - 1) + c];
        }
      }
    }
  }

  lemma SharedRowsAt(d: Description)
    ensures forall c :: 0 <= c < 3 ==> SharedRows(d)[c] == Components(d.offsetB)[c]
    ensures SharedRows(d)[3] == d.frictionCoefficient
    ensures forall c :: 0 <= c < 3 ==> SharedRows(d)[4 + c] == Components(d.normal)[c]
    ensures forall k :: 0 <= k < |d.springSettings| ==> SharedRows(d)[7 + k] == d.springSettings[k]
    ensures SharedRows(d)[7 + |d.springSettings|] == d.maximumRecoveryVelocity
  {
  }

  /** Row i of a lane: an offset row, a shared row or a depth row. */
  lemma LaneImageAt(d: Description, i: nat)
    requires i < |LaneImage(d)|
    ensures i < 3 * |d.contacts| ==> LaneImage(d)[i] == Offsets(d.contacts)[i]
    ensures 3 * |d.contacts| <= i < 3 * |d.contacts| + |SharedRows(d)| ==>
      LaneImage(d)[i] == SharedRows(d)[i - 3 * |d.contacts|]
    ensures 3 * |d.contacts| + |SharedRows(d)| <= i ==>
      LaneImage(d)[i] == Depths(d.contacts)[i - 3 * |d.contacts| - |SharedRows(d)|]
  {
    OffsetsAt(d.contacts);
  }

  /** Where each field of a description lands in its lane: the row functions of `Layout`. */
  lemma LaneImageSlots(layout: Layout, d: Description)
    requires Fits(layout, d)
    ensures |LaneImage(d)| == layout.SlotCount()
    ensures forall j, c :: 0 <= j < layout.contactCount && 0 <= c < 3 ==>
      LaneImage(d)[layout.OffsetASlot(j, c)] == Components(d.contacts[j].offsetA)[c]
    ensures forall c :: 0 <= c < 3 ==> LaneImage(d)[layout.OffsetBSlot(c)] == Components(d.offsetB)[c]
    ensures LaneImage(d)[layout.FrictionSlot()] == d.frictionCoefficient
    ensures forall c :: 0 <= c < 3 ==> LaneImage(d)[layout.NormalSlot(c)] == Components(d.normal)[c]
    ensures forall k :: 0 <= k < layout.springWidth ==> LaneImage(d)[layout.SpringSlot(k)] == d.springSettings[k]
    ensures LaneImage(d)[layout.MaximumRecoveryVelocitySlot()] == d.maximumRecoveryVelocity
    ensures forall j :: 0 <= j < layout.contactCount ==>
      LaneImage(d)[layout.DepthSlot(j)] == d.contacts[j].penetrationDepth
  {
    OffsetsAt(d.contacts);
    SharedRowsAt(d);
    var n, s := layout.contactCount, layout.springWidth;
    forall j, c | 0 <= j < n && 0 <= c < 3
      ensures LaneImage(d)[layout.OffsetASlot(j, c)] == Components(d.contacts[j].offsetA)[c]
    {
      LaneImageAt(d, 3 * j + c);
    }
    forall c | 0 <= c < 3 ensures LaneImage(d)[layout.OffsetBSlot(c)] == Components(d.offsetB)[c] {
      LaneImageAt(d, 3 * n + c);
    }
    LaneImageAt(d, layout.FrictionSlot());
    forall c | 0 <= c < 3 ensures LaneImage(d)[layout.NormalSlot(c)] == Components(d.normal)[c] {
      LaneImageAt(d, 3 * n + 4 + c);
    }
    forall k | 0 <= k < s ensures LaneImage(d)[layout.SpringSlot(k)] == d.springSettings[k] {
      LaneImageAt(d, 3 * n + 7 + k);
    }
    LaneImageAt(d, layout.MaximumRecoveryVelocitySlot());
    forall j | 0 <= j < n ensures LaneImage(d)[layout.DepthSlot(j)] == d.contacts[j].penetrationDepth {
      LaneImageAt(d, 3 * n + 8 + s + j);
    }
  }

  /** Reading a lane back gives the description that was stored there. */
  lemma DecodeLaneImage(layout: Layout, d: Description)
    requires Fits(layout, d)
    ensures |LaneImage(d)| == layout.SlotCount()
    ensures Decode(layout, LaneImage(d)) == d
  {
    LaneImageSlots(layout, d);
    var e := Decode(layout, LaneImage(d));
    forall j | 0 <= j < layout.contactCount ensures e.contacts[j] == d.contacts[j] {
      assert Components(d.contacts[j].offsetA)[0] == d.contacts[j].offsetA.x;
    }
    assert e.contacts == d.contacts;
    assert e.springSettings == d.springSettings;
  }

  /** Every row of a lane belongs to exactly one field: storing a decoded lane reproduces it. */
  lemma LaneImageDecode(layout: Layout, lane: seq<real>)
    requires |lane| == layout.SlotCount()
    ensures Fits(layout, Decode(layout, lane))
    ensures LaneImage(Decode(layout, lane)) == lane
  {
    var e := Decode(layout, lane);
    forall k | 0 <= k < |lane| ensures LaneImage(e)[k] == lane[k] {
      DecodedRow(layout, lane, k);
    }
  }

  lemma DecodedRow(layout: Layout, lane: seq<real>, k: nat)
    requires |lane| == layout.SlotCount() && k < |lane|
    ensures |LaneImage(Decode(layout, lane))| == |lane|
    ensures LaneImage(Decode(layout, lane))[k] == lane[k]
  {
    var e := Decode(layout, lane);
    var n, s := layout.contactCount, layout.springWidth;
    LaneImageAt(e, k);
    if k < 3 * n {
      DecodedOffsetRow(layout, lane, k);
    } else if k < 3 * n + 8 + s {
      DecodedSharedRow(layout, lane, k - 3 * n);
    } else {
      assert Depths(e.contacts)[k - 3 * n - 8 - s] == lane[layout.DepthSlot(k - 3 * n - 8 - s)];
    }
  }

  lemma DecodedOffsetRow(layout: Layout, lane: seq<real>, k: nat)
    requires |lane| == layout.SlotCount() && k < 3 * layout.contactCount
    ensures Offsets(Decode(layout, lane).contacts)[k] == lane[k]
  {
    var e := Decode(layout, lane);
    OffsetsAt(e.contacts);
    var j, c := k / 3, k % 3;
    assert k == layout.OffsetASlot(j, c);
    assert Components(e.contacts[j].offsetA)[c] == lane[layout.OffsetASlot(j, c)];
  }

  lemma DecodedSharedRow(layout: Layout, lane: seq<real>, r: nat)
    requires |lane| == layout.SlotCount() && r < 8 + layout.springWidth
    ensures SharedRows(Decode(layout, lane))[r] == lane[3 * layout.contactCount + r]
  {
    var e := Decode(layout, lane);
    var n, s := layout.contactCount, layout.springWidth;
    SharedRowsAt(e);
    if r < 3 {
      assert 3 * n + r == layout.OffsetBSlot(r);
    } else if r == 3 {
    } else if r < 7 {
      assert 3 * n + r == layout.NormalSlot(r - 4);
    } else if r < 7 + s {
      assert 3 * n + r == layout.SpringSlot(r - 7);
    }
  }

  // ---------------------------------------------------------------------------------------
  // Reading and writing one lane of the raw buffer.

  /** The values of lane `inner` of bundle `bundle`, row by row. */
  function Gather(buffer: seq<real>, layout: Layout, bundle: nat, inner: nat): (lane: seq<real>)
    requires BundleInRange(layout, |buffer|, bundle, inner)
    ensures |lane| == layout.SlotCount()
    ensures forall k :: 0 <= k < layout.SlotCount() ==> lane[k] == buffer[layout.Address(bundle, k, inner)]
  {
    seq(layout.SlotCount(), k requires 0 <= k < layout.SlotCount() => buffer[layout.Address(bundle, k, inner)])
  }

  /**
    The buffer after storing `lane` into lane `inner` of bundle `bundle`: every position of that
    lane holds the value of its row, every other position keeps its old value.
   */
  function Scatter(buffer: seq<real>, layout: Layout, bundle: nat, inner: nat, lane: seq<real>): (r: seq<real>)
    requires layout.Valid() && |lane| == layout.SlotCount()
    ensures |r| == |buffer|
  {
    seq(|buffer|, a requires 0 <= a < |buffer| =>
      if layout.InLane(bundle, inner, a) then lane[a / layout.laneCount - bundle * layout.SlotCount()] else buffer[a])
  }

  /**
    Which rows of a lane `ApplyDescription` has written once it has stored the first `contacts`
    depths and every row below `upTo`.
   */
  predicate Written(layout: Layout, contacts: nat, upTo: nat, row: int) {
    row < upTo || layout.DepthSlot(0) <= row < layout.DepthSlot(contacts)
  }

  /** Scatter restricted to the rows already written: the state of `ApplyDescription` part way through. */
  ghost function ScatterPartial(buffer: seq<real>, layout: Layout, bundle: nat, inner: nat, lane: seq<real>,
                                contacts: nat, upTo: nat): (r: seq<real>)
    requires layout.Valid() && |lane| == layout.SlotCount()
    ensures |r| == |buffer|
  {
    seq(|buffer|, a requires 0 <= a < |buffer| =>
      var row := a / layout.laneCount - bundle * layout.SlotCount();
      if layout.InLane(bundle, inner, a) && Written(layout, contacts, upTo, row) then lane[row] else buffer[a])
  }

  // Arithmetic on buffer positions.

  lemma DivModUnique(a: int, w: int, q: int, r: int)
    requires w > 0 && 0 <= r < w && a == q * w + r
    ensures a / w == q && a % w == r
  {
    var q', r' := a / w, a % w;
    assert (q' - q) * w == r - r';
    ZeroMultiple(q' - q, w);
  }

  /** The only multiple of w strictly between -w and w is zero. */
  lemma ZeroMultiple(k: int, w: int)
    requires w > 0 && -w < k * w < w
    ensures k == 0
  {
    if k >= 1 {
      MulAtLeast(k, w);
    } else if k <= -1 {
      MulAtLeast(-k, w);
    }
  }

  lemma MulAtLeast(k: int, w: int)
    requires k >= 1 && w > 0
    ensures k * w >= w
  {
  }

  lemma MulMonotone(x: int, y: int, w: nat)
    requires x <= y
    ensures x * w <= y * w
  {
  }

  /** Row-major position of element `inner` of row `slot` of block `bundle`, for blocks of `rows` rows of `lanes` elements. */
  function Position(bundle: nat, rows: nat, slot: nat, lanes: nat, inner: nat): (a: nat)
    ensures slot < rows && inner < lanes ==> bundle * rows * lanes <= a < (bundle + 1) * rows * lanes
  {
    if slot < rows && inner < lanes then
      AddressBounds(bundle, rows, slot, lanes, inner);
      (bundle * rows + slot) * lanes + inner
    else
      (bundle * rows + slot) * lanes + inner
  }

  lemma AddressBounds(bundle: nat, rows: nat, slot: nat, lanes: nat, inner: nat)
    requires slot < rows && inner < lanes
    ensures bundle * rows * lanes <= (bundle * rows + slot) * lanes + inner < (bundle + 1) * rows * lanes
  {
    assert bundle * rows + slot + 1 <= (bundle + 1) * rows;
    MulMonotone(bundle * rows + slot + 1, (bundle + 1) * rows, lanes);
    MulMonotone(bundle * rows, bundle * rows + slot, lanes);
    assert (bundle * rows + slot + 1) * lanes == (bundle * rows + slot) * lanes + lanes;
  }

  /** Row `slot` of lane `inner` of bundle `bundle` is in that lane, at that row. */
  lemma AddressInLane(layout: Layout, bundle: nat, slot: nat, inner: nat)
    requires layout.Valid() && slot < layout.SlotCount() && inner < layout.laneCount
    ensures layout.InLane(bundle, inner, layout.Address(bundle, slot, inner))
    ensures layout.Address(bundle, slot, inner) / layout.laneCount - bundle * layout.SlotCount() == slot
  {
    DivModUnique(layout.Address(bundle, slot, inner), layout.laneCount, bundle * layout.SlotCount() + slot, inner);
  }

  /** Every position of a lane is the address of one of its rows. */
  lemma LaneAddress(layout: Layout, bundle: nat, inner: nat, a: nat)
    requires layout.Valid() && layout.InLane(bundle, inner, a)
    ensures a == layout.Address(bundle, a / layout.laneCount - bundle * layout.SlotCount(), inner)
  {
  }

  /** Distinct (bundle, row, lane) triples have distinct addresses. */
  lemma AddressInjective(layout: Layout, b: nat, k: nat, i: nat, b': nat, k': nat, i': nat)
    requires layout.Valid()
    requires k < layout.SlotCount() && i < layout.laneCount && k' < layout.SlotCount() && i' < layout.laneCount
    requires layout.Address(b, k, i) == layout.Address(b', k', i')
    ensures b == b' && k == k' && i == i'
  {
    var a, w, f := layout.Address(b, k, i), layout.laneCount, layout.SlotCount();
    DivModUnique(a, w, b * f + k, i);
    DivModUnique(a, w, b' * f + k', i');
    DivModUnique(b * f + k, f, b, k);
    DivModUnique(b * f + k, f, b', k');
  }

  /** Writing row `slot` of the lane moves the partial scatter from `written` to `written'`. */
  lemma ScatterPartialStep(buffer: seq<real>, layout: Layout, bundle: nat, inner: nat, lane: seq<real>,
                           contacts: nat, upTo: nat, contacts': nat, upTo': nat, slot: nat)
    requires BundleInRange(layout, |buffer|, bundle, inner)
    requires |lane| == layout.SlotCount() && slot < layout.SlotCount()
    requires forall row: int :: Written(layout, contacts', upTo', row) == (Written(layout, contacts, upTo, row) || row == slot)
    ensures layout.Address(bundle, slot, inner) < |buffer|
    ensures ScatterPartial(buffer, layout, bundle, inner, lane, contacts, upTo)[layout.Address(bundle, slot, inner) := lane[slot]]
            == ScatterPartial(buffer, layout, bundle, inner, lane, contacts', upTo')
  {
    var address := layout.Address(bundle, slot, inner);
    AddressInLane(layout, bundle, slot, inner);
    var before := ScatterPartial(buffer, layout, bundle, inner, lane, contacts, upTo);
    var after := ScatterPartial(buffer, layout, bundle, inner, lane, contacts', upTo');
    forall a | 0 <= a < |buffer| ensures before[address := lane[slot]][a] == after[a] {
      if a != address && layout.InLane(bundle, inner, a) {
        LaneAddress(layout, bundle, inner, a);
      }
    }
  }

  /** Once every row is written the partial scatter is the whole scatter. */
  lemma ScatterPartialAll(buffer: seq<real>, layout: Layout, bundle: nat, inner: nat, lane: seq<real>)
    requires layout.Valid() && |lane| == layout.SlotCount()
    ensures ScatterPartial(buffer, layout, bundle, inner, lane, layout.contactCount, layout.DepthSlot(0))
            == Scatter(buffer, layout, bundle, inner, lane)
  {
  }

  /** Reading a lane right after storing into it returns what was stored. */
  lemma {:induction false} GatherScatter(buffer: seq<real>, layout: Layout, bundle: nat, inner: nat, lane: seq<real>)
    requires BundleInRange(layout, |buffer|, bundle, inner) && |lane| == layout.SlotCount()
    ensures Gather(Scatter(buffer, layout, bundle, inner, lane), layout, bundle, inner) == lane
  {
    forall k | 0 <= k < layout.SlotCount()
      ensures Scatter(buffer, layout, bundle, inner, lane)[layout.Address(bundle, k, inner)] == lane[k]
    {
      AddressInLane(layout, bundle, k, inner);
    }
  }

  /** Storing into one lane leaves every other lane of every bundle as it was. */
  lemma {:induction false} ScatterKeepsOtherLanes(buffer: seq<real>, layout: Layout, bundle: nat, inner: nat, lane: seq<real>,
                                                  otherBundle: nat, otherInner: nat)
    requires BundleInRange(layout, |buffer|, bundle, inner) && |lane| == layout.SlotCount()
    requires BundleInRange(layout, |buffer|, otherBundle, otherInner)
    requires otherBundle != bundle || otherInner != inner
    ensures Gather(Scatter(buffer, layout, bundle, inner, lane), layout, otherBundle, otherInner)
            == Gather(buffer, layout, otherBundle, otherInner)
  {
    var after := Scatter(buffer, layout, bundle, inner, lane);
    forall k | 0 <= k < layout.SlotCount()
      ensures after[layout.Address(otherBundle, k, otherInner)] == buffer[layout.Address(otherBundle, k, otherInner)]
    {
      var a := layout.Address(otherBundle, k, otherInner);
      if layout.InLane(bundle, inner, a) {
        var row := a / layout.laneCount - bundle * layout.SlotCount();
        LaneAddress(layout, bundle, inner, a);
        AddressInjective(layout, bundle, row, inner, otherBundle, k, otherInner);
      }
    }
  }

  // ---------------------------------------------------------------------------------------
  // The type batch and the two marshalling directions.

  /** The part of `TypeBatch` the descriptions touch: its type id and its raw prestep buffer. */
  class TypeBatch {
    var typeId: int
    var prestepData: array<real>

    constructor (typeId: int, prestepData: array<real>)
      ensures this.typeId == typeId && this.prestepData == prestepData
    {
      this.typeId := typeId;
      this.prestepData := prestepData;
    }
  }

  /** `GetFirst(ref field) = value` for the next row below the depths, proved against the partial scatter. */
  method WriteRow(buffer: array<real>, layout: Layout, bundle: nat, inner: nat, slot: nat, value: real,
                  ghost before: seq<real>, ghost lane: seq<real>, ghost contacts: nat)
    requires BundleInRange(layout, buffer.Length, bundle, inner) && |before| == buffer.Length
    requires |lane| == layout.SlotCount() && slot < layout.DepthSlot(0) && lane[slot] == value
    requires buffer[..] == ScatterPartial(before, layout, bundle, inner, lane, contacts, slot)
    modifies buffer
    ensures buffer[..] == ScatterPartial(before, layout, bundle, inner, lane, contacts, slot + 1)
  {
    ScatterPartialStep(before, layout, bundle, inner, lane, contacts, slot, contacts, slot + 1, slot);
    buffer[layout.Address(bundle, slot, inner)] := value;
  }

  /** `Vector3Wide.WriteFirst`: the three rows X, Y, Z starting at `slot`. */
  method WriteVector(buffer: array<real>, layout: Layout, bundle: nat, inner: nat, slot: nat, value: Vec3,
                     ghost before: seq<real>, ghost lane: seq<real>, ghost contacts: nat)
    requires BundleInRange(layout, buffer.Length, bundle, inner) && |before| == buffer.Length
    requires |lane| == layout.SlotCount() && slot + 3 <= layout.DepthSlot(0)
    requires lane[slot] == value.x && lane[slot + 1] == value.y && lane[slot + 2] == value.z
    requires buffer[..] == ScatterPartial(before, layout, bundle, inner, lane, contacts, slot)
    modifies buffer
    ensures buffer[..] == ScatterPartial(before, layout, bundle, inner, lane, contacts, slot + 3)
  {
    WriteRow(buffer, layout, bundle, inner, slot, value.x, before, lane, contacts);
    WriteRow(buffer, layout, bundle, inner, slot + 1, value.y, before, lane, contacts);
    WriteRow(buffer, layout, bundle, inner, slot + 2, value.z, before, lane, contacts);
  }

  /** The depth row of contact `contacts`, proved against the partial scatter. */
  method WriteDepth(buffer: array<real>, layout: Layout, bundle: nat, inner: nat, value: real,
                    ghost before: seq<real>, ghost lane: seq<real>, contacts: nat, ghost upTo: nat)
    requires BundleInRange(layout, buffer.Length, bundle, inner) && |before| == buffer.Length
    requires |lane| == layout.SlotCount() && contacts < layout.contactCount
    requires lane[layout.DepthSlot(contacts)] == value
    requires buffer[..] == ScatterPartial(before, layout, bundle, inner, lane, contacts, upTo)
    modifies buffer
    ensures buffer[..] == ScatterPartial(before, layout, bundle, inner, lane, contacts + 1, upTo)
  {
    ScatterPartialStep(before, layout, bundle, inner, lane, contacts, upTo, contacts + 1, upTo, layout.DepthSlot(contacts));
    buffer[layout.Address(bundle, layout.DepthSlot(contacts), inner)] := value;
  }

  /** The per-contact part of `ApplyDescription`: for each contact its offset, then its depth. */
  method WriteContacts(buffer: array<real>, layout: Layout, bundle: nat, inner: nat, description: Description,
                       ghost before: seq<real>)
    requires Fits(layout, description) && BundleInRange(layout, buffer.Length, bundle, inner)
    requires buffer[..] == before
    modifies buffer
    ensures buffer[..] == ScatterPartial(before, layout, bundle, inner, LaneImage(description),
                                         layout.contactCount, 3 * layout.contactCount)
  {
    ghost var lane := LaneImage(description);
    LaneImageSlots(layout, description);
    WriteEachContact(buffer, layout, bundle, inner, description.contacts, before, lane);
  }

  /** The loop over the contacts, against the rows the lane gives each contact. */
  method WriteEachContact(buffer: array<real>, layout: Layout, bundle: nat, inner: nat, contacts: seq<ContactData>,
                          ghost before: seq<real>, ghost lane: seq<real>)
    requires BundleInRange(layout, buffer.Length, bundle, inner) && buffer[..] == before
    requires |lane| == layout.SlotCount() && |contacts| == layout.contactCount
    requires forall j, c :: 0 <= j < layout.contactCount && 0 <= c < 3 ==>
      lane[layout.OffsetASlot(j, c)] == Components(contacts[j].offsetA)[c]
    requires forall j :: 0 <= j < layout.contactCount ==> lane[layout.DepthSlot(j)] == contacts[j].penetrationDepth
    modifies buffer
    ensures buffer[..] == ScatterPartial(before, layout, bundle, inner, lane, layout.contactCount, 3 * layout.contactCount)
  {
    assert buffer[..] == ScatterPartial(before, layout, bundle, inner, lane, 0, 0);
    for j := 0 to layout.contactCount
      invariant buffer[..] == ScatterPartial(before, layout, bundle, inner, lane, j, 3 * j)
    {
      var contact := contacts[j];
      assert layout.OffsetASlot(j, 1) == 3 * j + 1 && layout.OffsetASlot(j, 2) == 3 * j + 2;
      assert Components(contact.offsetA)[1] == contact.offsetA.y;
      WriteVector(buffer, layout, bundle, inner, layout.OffsetASlot(j, 0), contact.offsetA, before, lane, j);
      WriteDepth(buffer, layout, bundle, inner, contact.penetrationDepth, before, lane, j, 3 * j + 3);
    }
  }

  /** The shared part of `ApplyDescription`: OffsetB, friction, normal, springs, recovery velocity. */
  method WriteSharedFields(buffer: array<real>, layout: Layout, bundle: nat, inner: nat, description: Description,
                           ghost before: seq<real>)
    requires Fits(layout, description) && BundleInRange(layout, buffer.Length, bundle, inner) && |before| == buffer.Length
    requires buffer[..] == ScatterPartial(before, layout, bundle, inner, LaneImage(description),
                                          layout.contactCount, 3 * layout.contactCount)
    modifies buffer
    ensures buffer[..] == Scatter(before, layout, bundle, inner, LaneImage(description))
  {
    ghost var lane := LaneImage(description);
    LaneImageSlots(layout, description);
    WriteFrame(buffer, layout, bundle, inner, description, before, lane);
    WriteSprings(buffer, layout, bundle, inner, description, before, lane);
    ScatterPartialAll(before, layout, bundle, inner, lane);
  }

  /** OffsetB, friction and normal: the seven rows after the offsets. */
  method WriteFrame(buffer: array<real>, layout: Layout, bundle: nat, inner: nat, description: Description,
                    ghost before: seq<real>, ghost lane: seq<real>)
    requires BundleInRange(layout, buffer.Length, bundle, inner) && |before| == buffer.Length
    requires |lane| == layout.SlotCount()
    requires forall c :: 0 <= c < 3 ==> lane[layout.OffsetBSlot(c)] == Components(description.offsetB)[c]
    requires lane[layout.FrictionSlot()] == description.frictionCoefficient
    requires forall c :: 0 <= c < 3 ==> lane[layout.NormalSlot(c)] == Components(description.normal)[c]
    requires buffer[..] == ScatterPartial(before, layout, bundle, inner, lane, layout.contactCount, 3 * layout.contactCount)
    modifies buffer
    ensures buffer[..] == ScatterPartial(before, layout, bundle, inner, lane, layout.contactCount, layout.SpringSlot(0))
  {
    var n := layout.contactCount;
    assert layout.OffsetBSlot(1) == 3 * n + 1 && layout.OffsetBSlot(2) == 3 * n + 2;
    assert Components(description.offsetB)[1] == description.offsetB.y;
    WriteVector(buffer, layout, bundle, inner, layout.OffsetBSlot(0), description.offsetB, before, lane, n);
    WriteRow(buffer, layout, bundle, inner, layout.FrictionSlot(), description.frictionCoefficient, before, lane, n);
    assert layout.NormalSlot(1) == 3 * n + 5 && layout.NormalSlot(2) == 3 * n + 6;
    assert Components(description.normal)[1] == description.normal.y;
    WriteVector(buffer, layout, bundle, inner, layout.NormalSlot(0), description.normal, before, lane, n);
  }

  /** `SpringSettingsWide.WriteFirst`, one row per spring value, then the recovery velocity. */
  method WriteSprings(buffer: array<real>, layout: Layout, bundle: nat, inner: nat, description: Description,
                      ghost before: seq<real>, ghost lane: seq<real>)
    requires BundleInRange(layout, buffer.Length, bundle, inner) && |before| == buffer.Length
    requires |lane| == layout.SlotCount() && |description.springSettings| == layout.springWidth
    requires forall k :: 0 <= k < layout.springWidth ==> lane[layout.SpringSlot(k)] == description.springSettings[k]
    requires lane[layout.MaximumRecoveryVelocitySlot()] == description.maximumRecoveryVelocity
    requires buffer[..] == ScatterPartial(before, layout, bundle, inner, lane, layout.contactCount, layout.SpringSlot(0))
    modifies buffer
    ensures buffer[..] == ScatterPartial(before, layout, bundle, inner, lane, layout.contactCount, layout.DepthSlot(0))
  {
    var n := layout.contactCount;
    for k := 0 to layout.springWidth
      invariant buffer[..] == ScatterPartial(before, layout, bundle, inner, lane, n, layout.SpringSlot(k))
    {
      WriteRow(buffer, layout, bundle, inner, layout.SpringSlot(k), description.springSettings[k], before, lane, n);
    }
    WriteRow(buffer, layout, bundle, inner, layout.MaximumRecoveryVelocitySlot(),
             description.maximumRecoveryVelocity, before, lane, n);
  }

  /**
    `ContactN.ApplyDescription`: stores the description into lane `innerIndex` of bundle
    `bundleIndex`, contact by contact (offset, then depth), then the shared fields. The batch
    must be of the description's type.
   */
  method ApplyDescription(description: Description, batch: TypeBatch, layout: Layout, bundleIndex: nat, innerIndex: nat)
    requires Fits(layout, description)
    requires BundleInRange(layout, batch.prestepData.Length, bundleIndex, innerIndex)
    requires batch.typeId == ConstraintTypeId(layout.contactCount)
    modifies batch.prestepData
    ensures batch.prestepData[..] == Scatter(old(batch.prestepData[..]), layout, bundleIndex, innerIndex, LaneImage(description))
  {
    var buffer := batch.prestepData;
    ghost var before := buffer[..];
    WriteContacts(buffer, layout, bundleIndex, innerIndex, description, before);
    WriteSharedFields(buffer, layout, bundleIndex, innerIndex, description, before);
  }

  /**
    `ContactN.BuildDescription` with the layout of its own size: the description whose lane
    image is exactly what lane `innerIndex` of bundle `bundleIndex` holds.
   */
  function BuildDescription(typeId: int, buffer: seq<real>, layout: Layout, bundleIndex: nat, innerIndex: nat): (d: Description)
    requires layout.Valid() && typeId == ConstraintTypeId(layout.contactCount)
    requires BundleInRange(layout, |buffer|, bundleIndex, innerIndex)
    ensures Fits(layout, d)
    ensures LaneImage(d) == Gather(buffer, layout, bundleIndex, innerIndex)
  {
    LaneImageDecode(layout, Gather(buffer, layout, bundleIndex, innerIndex));
    Decode(layout, Gather(buffer, layout, bundleIndex, innerIndex))
  }

  /**
    `ContactN.BuildDescription` as the engine writes it for every N: the lane is read through
    `Contact4PrestepData` (bundle stride and field rows of the four-contact layout) and the
    description keeps its first N contacts.
   */
  function BuildDescriptionAsWritten(typeId: int, buffer: seq<real>, layout: Layout, bundleIndex: nat, innerIndex: nat): (d: Description)
    requires layout.Valid() && typeId == ConstraintTypeId(layout.contactCount)
    requires BundleInRange(layout.FourContact(), |buffer|, bundleIndex, innerIndex)
    ensures |d.contacts| == layout.contactCount
    ensures forall j :: 0 <= j < layout.contactCount ==>
      d.contacts[j].penetrationDepth == buffer[layout.FourContact().Address(bundleIndex, layout.FourContact().DepthSlot(j), innerIndex)]
    ensures d.offsetB.x == buffer[layout.FourContact().Address(bundleIndex, layout.FourContact().OffsetBSlot(0), innerIndex)]
  {
    var four := layout.FourContact();
    var all := Decode(four, Gather(buffer, four, bundleIndex, innerIndex));
    all.(contacts := all.contacts[..layout.contactCount])
  }

  /** `CopyManifoldWideProperties`: sets the five shared fields and leaves the contacts alone. */
  method CopyManifoldWideProperties(description: Description, offsetB: Vec3, normal: Vec3, material: Material)
    returns (r: Description)
    ensures r.contacts == description.contacts
    ensures r.offsetB == offsetB && r.normal == normal
    ensures r.frictionCoefficient == material.frictionCoefficient
    ensures r.springSettings == material.springSettings
    ensures r.maximumRecoveryVelocity == material.maximumRecoveryVelocity
  {
    r := description;
    r := r.(offsetB := offsetB);
    r := r.(frictionCoefficient := material.frictionCoefficient);
    r := r.(normal := normal);
    r := r.(springSettings := material.springSettings);
    r := r.(maximumRecoveryVelocity := material.maximumRecoveryVelocity);
  }

  // ---------------------------------------------------------------------------------------
  // Round trips.

  /** Storing a description and reading the same lane back with its own layout returns it. */
  lemma RoundTrip(buffer: seq<real>, layout: Layout, bundleIndex: nat, innerIndex: nat, d: Description)
    requires Fits(layout, d) && BundleInRange(layout, |buffer|, bundleIndex, innerIndex)
    ensures |LaneImage(d)| == layout.SlotCount()
    ensures BuildDescription(ConstraintTypeId(layout.contactCount),
                             Scatter(buffer, layout, bundleIndex, innerIndex, LaneImage(d)),
                             layout, bundleIndex, innerIndex) == d
  {
    DecodeLaneImage(layout, d);
    GatherScatter(buffer, layout, bundleIndex, innerIndex, LaneImage(d));
  }

  /** Storing a description changes no other lane's description. */
  lemma ApplyKeepsOtherDescriptions(buffer: seq<real>, layout: Layout, bundleIndex: nat, innerIndex: nat, d: Description,
                                    otherBundle: nat, otherInner: nat)
    requires Fits(layout, d) && BundleInRange(layout, |buffer|, bundleIndex, innerIndex)
    requires BundleInRange(layout, |buffer|, otherBundle, otherInner)
    requires otherBundle != bundleIndex || otherInner != innerIndex
    ensures |LaneImage(d)| == layout.SlotCount()
    ensures BuildDescription(ConstraintTypeId(layout.contactCount),
                             Scatter(buffer, layout, bundleIndex, innerIndex, LaneImage(d)), layout, otherBundle, otherInner)
            == BuildDescription(ConstraintTypeId(layout.contactCount), buffer, layout, otherBundle, otherInner)
  {
    LaneImageSlots(layout, d);
    ScatterKeepsOtherLanes(buffer, layout, bundleIndex, innerIndex, LaneImage(d), otherBundle, otherInner);
  }

  /** For Contact4 the read as written is the read with its own layout, so its round trip holds. */
  lemma FourContactReadAsWritten(typeId: int, buffer: seq<real>, layout: Layout, bundleIndex: nat, innerIndex: nat)
    requires layout.Valid() && layout.contactCount == 4 && typeId == ConstraintTypeId(4)
    requires BundleInRange(layout, |buffer|, bundleIndex, innerIndex)
    ensures BuildDescriptionAsWritten(typeId, buffer, layout, bundleIndex, innerIndex)
            == BuildDescription(typeId, buffer, layout, bundleIndex, innerIndex)
  {
    var all := Decode(layout, Gather(buffer, layout, bundleIndex, innerIndex));
    assert all.contacts[..4] == all.contacts;
  }

  /**
    For Contact1..3 the read as written takes contact j's depth from a row that
    `ApplyDescription` never writes: it returns the value the buffer held before the store.
   */
  lemma AsWrittenReadsStaleDepth(buffer: seq<real>, layout: Layout, bundleIndex: nat, innerIndex: nat, d: Description, j: nat)
    requires Fits(layout, d) && layout.contactCount < 4 && j < layout.contactCount
    requires BundleInRange(layout, |buffer|, bundleIndex, innerIndex)
    requires BundleInRange(layout.FourContact(), |buffer|, bundleIndex, innerIndex)
    ensures |LaneImage(d)| == layout.SlotCount()
    ensures BuildDescriptionAsWritten(ConstraintTypeId(layout.contactCount),
                                      Scatter(buffer, layout, bundleIndex, innerIndex, LaneImage(d)),
                                      layout, bundleIndex, innerIndex).contacts[j].penetrationDepth
            == buffer[layout.FourContact().Address(bundleIndex, layout.FourContact().DepthSlot(j), innerIndex)]
  {
    LaneImageSlots(layout, d);
    var four := layout.FourContact();
    var a := four.Address(bundleIndex, four.DepthSlot(j), innerIndex);
    var row := bundleIndex * four.SlotCount() + four.DepthSlot(j);
    DivModUnique(a, layout.laneCount, row, innerIndex);
    MulMonotone(layout.SlotCount(), four.SlotCount(), bundleIndex);
    assert bundleIndex * layout.SlotCount() <= bundleIndex * four.SlotCount();
    assert !layout.InLane(bundleIndex, innerIndex, a);
  }

  /** Hence for Contact1..3, whenever that stale row differs from the stored depth, the round trip fails. */
  lemma AsWrittenRoundTripFails(buffer: seq<real>, layout: Layout, bundleIndex: nat, innerIndex: nat, d: Description)
    requires Fits(layout, d) && layout.contactCount < 4
    requires BundleInRange(layout, |buffer|, bundleIndex, innerIndex)
    requires BundleInRange(layout.FourContact(), |buffer|, bundleIndex, innerIndex)
    requires buffer[layout.FourContact().Address(bundleIndex, layout.FourContact().DepthSlot(0), innerIndex)]
             != d.contacts[0].penetrationDepth
    ensures |LaneImage(d)| == layout.SlotCount()
    ensures BuildDescriptionAsWritten(ConstraintTypeId(layout.contactCount),
                                      Scatter(buffer, layout, bundleIndex, innerIndex, LaneImage(d)),
                                      layout, bundleIndex, innerIndex) != d
  {
    AsWrittenReadsStaleDepth(buffer, layout, bundleIndex, innerIndex, d, 0);
  }

  /**
    Contact1 with two spring rows, bundle 0, any lane count: the four-contact row of OffsetB.X is
    row 12, which Contact1 fills with the maximum recovery velocity, so that is what is read back.
   */
  lemma AsWrittenContact1MisreadsOffsetB(buffer: seq<real>, laneCount: nat, innerIndex: nat, d: Description)
    requires Fits(Layout(1, 2, laneCount), d)
    requires BundleInRange(Layout(1, 2, laneCount).FourContact(), |buffer|, 0, innerIndex)
    ensures BundleInRange(Layout(1, 2, laneCount), |buffer|, 0, innerIndex)
    ensures |LaneImage(d)| == Layout(1, 2, laneCount).SlotCount()
    ensures BuildDescriptionAsWritten(4, Scatter(buffer, Layout(1, 2, laneCount), 0, innerIndex, LaneImage(d)),
                                      Layout(1, 2, laneCount), 0, innerIndex).offsetB.x
            == d.maximumRecoveryVelocity
  {
    var layout := Layout(1, 2, laneCount);
    var four := layout.FourContact();
    LaneImageSlots(layout, d);
    MulMonotone(layout.SlotCount(), four.SlotCount(), laneCount);
    var a := four.Address(0, four.OffsetBSlot(0), innerIndex);
    assert a == 12 * laneCount + innerIndex;
    DivModUnique(a, laneCount, 12, innerIndex);
    assert layout.InLane(0, innerIndex, a);
  }

  /**
    A concrete case: a Contact1 with depth 1 and recovery velocity 2 stored into lane 0 of bundle
    0 of a zeroed buffer of 104 values (four lanes per row, two spring rows). It reads back with depth 0, the
    untouched position 88, and with OffsetB.X equal to 2, the recovery velocity.
   */
  lemma AsWrittenContact1Counterexample(buffer: seq<real>)
    requires |buffer| == 104 && forall a :: 0 <= a < 104 ==> buffer[a] == 0.0
    ensures var layout := Layout(1, 2, 4);
            var d := Description([ContactData(Zero, 1.0)], Zero, 0.0, Zero, [0.0, 0.0], 2.0);
            |LaneImage(d)| == layout.SlotCount() &&
            var read := BuildDescriptionAsWritten(4, Scatter(buffer, layout, 0, 0, LaneImage(d)), layout, 0, 0);
            read.contacts[0].penetrationDepth == 0.0 && read.offsetB.x == 2.0
  {
    var layout := Layout(1, 2, 4);
    var four := layout.FourContact();
    var d := Description([ContactData(Zero, 1.0)], Zero, 0.0, Zero, [0.0, 0.0], 2.0);
    assert four.Address(0, four.DepthSlot(0), 0) == 88;
    AsWrittenReadsStaleDepth(buffer, layout, 0, 0, d, 0);
    AsWrittenContact1MisreadsOffsetB(buffer, 4, 0, d);
  }
}
