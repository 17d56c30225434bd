/** The balloons of the bonus round: the entity, how one is generated from its
    random draws, how the field advances once per tick, and how a tapped balloon
    is found and removed. Positions are percentages of the play field. */
module BalloonField {

  datatype Option<T> = None | Some(value: T)

  datatype Kind = Normal | Bonus | Special

  /** One live balloon. Only `y` changes after the balloon is generated. */
  datatype Balloon = Balloon(
    id: real,
    x: real,
    y: real,
    color: string,
    speed: real,
    size: nat,
    points: nat,
    kind: Kind)

  const Palette: seq<string> :=
    ["#FF6B9D", "#4ECDC4", "#45B7D1", "#96CEB4", "#FFEAA7", "#DDA0DD", "#FFB347", "#98FB98"]

  /** Entry height, above the top edge of the field; `y` is measured up from the
      bottom edge, so balloons fall as `y` decreases. */
  const SpawnY: real := 110.0
  /** A balloon stays in the field while its `y` is above this line below the
      bottom edge. */
  const ExitY: real := -10.0
  const FieldWidth: real := 90.0
  const MinSpeed: real := 0.5
  const SpeedSpan: real := 1.5
  /** Probability that one tick spawns a balloon. */
  const SpawnChance: real := 0.3

  /** The random numbers one generation draws, in the order it draws them. */
  datatype Draws = Draws(kind: real, id: real, x: real, color: real, speed: real)

  predicate UnitDraw(r: real) {
    0.0 <= r < 1.0
  }

  predicate ValidDraws(d: Draws) {
    UnitDraw(d.kind) && UnitDraw(d.id) && UnitDraw(d.x) && UnitDraw(d.color) && UnitDraw(d.speed)
  }

  /** The points a tap on a balloon of kind `k` is worth before any combo bonus. */
  function BasePoints(k: Kind): nat {
    match k
    case Normal => 10
    case Bonus => 25
    case Special => 50
  }

  function SizeOf(k: Kind): nat {
    match k
    case Normal => 40
    case Bonus => 50
    case Special => 60
  }

  /** What holds of a balloon from its generation until it leaves the field:
      its points and size agree with its kind, and its position across the
      field, its speed and its colour stay in their ranges. */
  predicate WellFormed(b: Balloon) {
    && b.points == BasePoints(b.kind)
    && b.size == SizeOf(b.kind)
    && 0.0 <= b.x < FieldWidth
    && MinSpeed <= b.speed < MinSpeed + SpeedSpan
    && b.color in Palette
  }

  predicate AllWellFormed(bs: seq<Balloon>) {
    forall b :: b in bs ==> WellFormed(b)
  }

  /** A new balloon at the entry height above the field, its kind chosen by the first draw alone. */
  function GenerateBalloon(d: Draws): (b: Balloon)
    requires ValidDraws(d)
    ensures WellFormed(b)
    ensures b.y == SpawnY && b.id == d.id
    ensures b.kind == Special <==> d.kind < 0.1
    ensures b.kind == Bonus <==> 0.1 <= d.kind < 0.3
    ensures b.kind == Normal <==> 0.3 <= d.kind
  {
    var (kind, points, size) :=
      if d.kind < 0.1 then (Special, 50, 60)
      else if d.kind < 0.3 then (Bonus, 25, 50)
      else (Normal, 10, 40);
    var colorIndex := (d.color * |Palette| as real).Floor;
    Balloon(d.id, d.x * FieldWidth, SpawnY, Palette[colorIndex],
            MinSpeed + d.speed * SpeedSpan, size, points, kind)
  }

  /** What one tick adds to the field: a new balloon when the spawn draw falls
      under the spawn chance, nothing otherwise. The balloon's draws are only
      taken, and so only need to be in range, when it spawns. */
  function Spawn(spawnDraw: real, d: Draws): (added: seq<Balloon>)
    requires spawnDraw < SpawnChance ==> ValidDraws(d)
    ensures |added| <= 1
    ensures added == [] <==> spawnDraw >= SpawnChance
    ensures forall b :: b in added ==> WellFormed(b) && b.y == SpawnY
    ensures spawnDraw < SpawnChance ==> added == [GenerateBalloon(d)]
  {
    if spawnDraw < SpawnChance then [GenerateBalloon(d)] else []
  }

  // ---------------------------------------------------------------------------
  // Motion and lifecycle

  /** One tick of downward drift. */
  function Fall(b: Balloon): Balloon {
    b.(y := b.y - b.speed)
  }

  predicate Visible(b: Balloon) {
    b.y > ExitY
  }

  function MoveAll(bs: seq<Balloon>): (moved: seq<Balloon>)
    ensures |moved| == |bs|
    ensures forall i :: 0 <= i < |bs| ==> moved[i] == Fall(bs[i])
  {
    if bs == [] then [] else [Fall(bs[0])] + MoveAll(bs[1..])
  }

  function KeepVisible(bs: seq<Balloon>): (kept: seq<Balloon>)
    ensures |kept| <= |bs|
    ensures forall b :: b in kept <==> b in bs && Visible(b)
  {
    if bs == [] then []
    else (if Visible(bs[0]) then [bs[0]] else []) + KeepVisible(bs[1..])
  }

  lemma {:induction false} KeepVisibleAppend(a: seq<Balloon>, c: seq<Balloon>)
    ensures KeepVisible(a + c) == KeepVisible(a) + KeepVisible(c)
  {
    if a == [] {
      assert a + c == c;
    } else {
      assert (a + c)[0] == a[0];
      assert (a + c)[1..] == a[1..] + c;
      KeepVisibleAppend(a[1..], c);
    }
  }

  /** The field after one tick's move and filter: no more balloons than before,
      and all of them still above the exit line. */
  function Advance(bs: seq<Balloon>): (next: seq<Balloon>)
    ensures |next| <= |bs|
    ensures forall b :: b in next ==> Visible(b)
  {
    KeepVisible(MoveAll(bs))
  }

  /** A single balloon falls by its own speed and survives exactly when it is
      still above the exit line; nothing but `y` changes. */
  lemma AdvanceOne(b: Balloon)
    ensures Advance([b]) == if b.y - b.speed > ExitY then [b.(y := b.y - b.speed)] else []
  {
  }

  /** Advancing a field is advancing its parts in turn, so survivors keep their
      relative order. */
  lemma {:induction false} AdvanceAppend(a: seq<Balloon>, c: seq<Balloon>)
    ensures Advance(a + c) == Advance(a) + Advance(c)
  {
    assert MoveAll(a + c) == MoveAll(a) + MoveAll(c);
    KeepVisibleAppend(MoveAll(a), MoveAll(c));
  }

  /** A balloon is on the field after a tick exactly when it is the moved image
      of a balloon before the tick that is still above the exit line. */
  lemma AdvanceMembers(bs: seq<Balloon>, b: Balloon)
    ensures b in Advance(bs) <==>
      exists k :: 0 <= k < |bs| && Fall(bs[k]) == b && bs[k].y - bs[k].speed > ExitY
  {
  }

  /** Motion keeps every balloon well formed: each balloon after a tick is an
      old one with only its height changed. */
  lemma AdvanceKeepsWellFormed(bs: seq<Balloon>)
    requires AllWellFormed(bs)
    ensures forall b :: b in Advance(bs) ==> exists k :: 0 <= k < |bs| && b == bs[k].(y := b.y)
    ensures AllWellFormed(Advance(bs))
  {
    forall b | b in Advance(bs) ensures WellFormed(b) {
      AdvanceMembers(bs, b);
      var k :| 0 <= k < |bs| && Fall(bs[k]) == b && bs[k].y - bs[k].speed > ExitY;
      assert bs[k] in bs;
    }
  }

  // ---------------------------------------------------------------------------
  // Tap lookup and removal

  /** The first balloon with identifier `id`, if any. */
  function Find(bs: seq<Balloon>, id: real): (found: Option<Balloon>)
    ensures found.None? <==> forall b :: b in bs ==> b.id != id
    ensures found.Some? ==> found.value in bs && found.value.id == id
  {
    if bs == [] then None
    else if bs[0].id == id then Some(bs[0])
    else Find(bs[1..], id)
  }

  /** Find returns the earliest balloon carrying the identifier. */
  lemma {:induction false} FindFirst(bs: seq<Balloon>, id: real, k: nat)
    requires k < |bs| && bs[k].id == id
    requires forall j :: 0 <= j < k ==> bs[j].id != id
    ensures Find(bs, id) == Some(bs[k])
  {
    if k > 0 {
      assert bs[0].id != id;
      FindFirst(bs[1..], id, k - 1);
    }
  }

  /** The field without any balloon carrying identifier `id`. */
  function RemoveId(bs: seq<Balloon>, id: real): (rest: seq<Balloon>)
    ensures |rest| <= |bs|
    ensures forall b :: b in rest <==> b in bs && b.id != id
  {
    if bs == [] then []
    else (if bs[0].id != id then [bs[0]] else []) + RemoveId(bs[1..], id)
  }

  lemma {:induction false} RemoveIdAppend(a: seq<Balloon>, c: seq<Balloon>, id: real)
    ensures RemoveId(a + c, id) == RemoveId(a, id) + RemoveId(c, id)
  {
    if a == [] {
      assert a + c == c;
    } else {
      assert (a + c)[0] == a[0];
      assert (a + c)[1..] == a[1..] + c;
      RemoveIdAppend(a[1..], c, id);
    }
  }

  /** Removing an identifier nobody carries changes nothing. */
  lemma {:induction false} RemoveIdAbsent(bs: seq<Balloon>, id: real)
    requires forall b :: b in bs ==> b.id != id
    ensures RemoveId(bs, id) == bs
  {
    if bs != [] {
      assert bs[0] in bs;
      assert forall b :: b in bs[1..] ==> b in bs;
      RemoveIdAbsent(bs[1..], id);
      assert bs == [bs[0]] + bs[1..];
    }
  }

  predicate DistinctIds(bs: seq<Balloon>) {
    forall i, j :: 0 <= i < j < |bs| ==> bs[i].id != bs[j].id
  }

  /** When identifiers are distinct, removing the identifier of the balloon at
      index `k` removes exactly that balloon and keeps all others, unchanged and
      in order. */
  lemma {:induction false} RemoveIdAt(bs: seq<Balloon>, k: nat)
    requires DistinctIds(bs) && k < |bs|
    ensures RemoveId(bs, bs[k].id) == bs[..k] + bs[k + 1..]
  {
    var id, tail := bs[k].id, bs[1..];
    if k == 0 {
      forall b | b in tail ensures b.id != id {
        var j :| 0 <= j < |tail| && tail[j] == b;
        assert bs[j + 1] == b;
      }
      RemoveIdAbsent(tail, id);
    } else {
      assert bs[0].id != id;
      assert tail[k - 1] == bs[k];
      RemoveIdAt(tail, k - 1);
      assert [bs[0]] + tail[..k - 1] == bs[..k];
      assert tail[k..] == bs[k + 1..];
    }
  }

  /** Removal leaves every remaining balloon well formed. */
  lemma RemoveIdKeepsWellFormed(bs: seq<Balloon>, id: real)
    requires AllWellFormed(bs)
    ensures AllWellFormed(RemoveId(bs, id))
  {
  }
}
