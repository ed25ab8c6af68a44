/** Moving addresses and provenance sources from one party to another. */
module PartyPlaces {

  /** An address or a provenance source. `slot` is the address type; all sources share one slot. Each slot
      has at most one active primary row. */
  datatype Place = Place(slot: string, primary: bool, active: bool, detail: string)

  predicate Leads(p: Place, slot: string) {
    p.slot == slot && p.primary && p.active
  }

  predicate Led(rows: seq<Place>, slot: string) {
    exists i :: 0 <= i < |rows| && Leads(rows[i], slot)
  }

  /** Saving a primary row makes it active, and no slot has two active primary rows. */
  ghost predicate PlacesValid(rows: seq<Place>) {
    && (forall i | 0 <= i < |rows| :: rows[i].primary ==> rows[i].active)
    && (forall i, j | 0 <= i < j < |rows| && rows[i].primary && rows[j].primary :: rows[i].slot != rows[j].slot)
  }

  function MovePlace(target: seq<Place>, row: Place): seq<Place> {
    target + [row.(primary := row.primary && !Led(target, row.slot))]
  }

  function MovePlaces(source: seq<Place>, target: seq<Place>): seq<Place>
    decreases |source|
  {
    if source == [] then target else MovePlaces(source[1..], MovePlace(target, source[0]))
  }

  /** A row of the source as it arrives, judged against the rows the target had before the merge. */
  function Arrived(row: Place, target: seq<Place>): Place {
    row.(primary := row.primary && !Led(target, row.slot))
  }

  lemma {:induction false} MovePlaceLeads(target: seq<Place>, row: Place, slot: string)
    requires row.primary ==> row.active
    ensures Led(MovePlace(target, row), slot) <==> Led(target, slot) || Leads(row, slot)
  {
    var moved := MovePlace(target, row);
    if Led(target, slot) {
      var i :| 0 <= i < |target| && Leads(target[i], slot);
      assert moved[i] == target[i];
    } else if Leads(row, slot) {
      assert Leads(moved[|target|], slot);
    }
    if Led(moved, slot) {
      var i :| 0 <= i < |moved| && Leads(moved[i], slot);
      assert i < |target| ==> moved[i] == target[i];
    }
  }

  /** The loop, which asks about the growing target each time, gives every source row the answer that the
      original target gives: no row of the target changes, and a source row is demoted exactly when the
      target already led its slot. */
  lemma {:induction false} MovedPlaces(source: seq<Place>, target: seq<Place>)
    requires PlacesValid(source) && PlacesValid(target)
    ensures MovePlaces(source, target)
        == target + seq(|source|, i requires 0 <= i < |source| => Arrived(source[i], target))
    decreases |source|
  {
    if source != [] {
      var next := MovePlace(target, source[0]);
      assert PlacesValid(next) by {
        forall i | 0 <= i < |target| && next[|target|].primary && target[i].primary
          ensures target[i].slot != source[0].slot
        {
          assert Leads(target[i], target[i].slot);
        }
      }
      MovedPlaces(source[1..], next);
      forall i | 1 <= i < |source| ensures Arrived(source[i], next) == Arrived(source[i], target) {
        MovePlaceLeads(target, source[0], source[i].slot);
      }
    }
  }

  /** The moved rows keep the one-primary constraint, and a slot is led exactly when one of the parties led it. */
  lemma {:induction false} PlacesKept(source: seq<Place>, target: seq<Place>, slot: string)
    requires PlacesValid(source) && PlacesValid(target)
    ensures var moved := MovePlaces(source, target);
            && PlacesValid(moved) && target <= moved && |moved| == |target| + |source|
            && (Led(moved, slot) <==> Led(source, slot) || Led(target, slot))
  {
    MovedPlaces(source, target);
    var moved := MovePlaces(source, target);
    forall i, j | 0 <= i < |target| <= j < |moved| && moved[i].primary && moved[j].primary
      ensures moved[i].slot != moved[j].slot
    {
      assert Leads(target[i], target[i].slot);
    }
    if Led(target, slot) {
      var i :| 0 <= i < |target| && Leads(target[i], slot);
      assert Leads(moved[i], slot);
    } else if Led(source, slot) {
      var i :| 0 <= i < |source| && Leads(source[i], slot);
      assert Leads(moved[|target| + i], slot);
    }
    if Led(moved, slot) {
      var i :| 0 <= i < |moved| && Leads(moved[i], slot);
      if i < |target| {
        assert Leads(target[i], slot);
      } else {
        assert Leads(source[i - |target|], slot);
      }
    }
  }
}
