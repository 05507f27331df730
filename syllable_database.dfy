/**
 * The syllable store (LoreGen.Data.SyllableDatabase): a dictionary from id to syllable plus the
 * list of syllables in insertion order. The list's membership test compares references, so a
 * second object with an id already present replaces the dictionary entry but is also appended.
 */
module SyllableStore {
  import opened Wrappers
  import opened Seqs
  import opened Syllables

  /** The syllables `ids` name in `byId`, in the order of `ids`, skipping ids `byId` lacks. */
  function Resolve(ids: seq<string>, byId: map<string, Syllable>): (r: seq<Syllable>)
    ensures |r| <= |ids|
    ensures forall x | x in r :: exists id | id in ids :: id in byId && byId[id] == x
    ensures forall id | id in ids && id in byId :: byId[id] in r
  {
    if ids == [] then []
    else
      assert forall id | id in ids[1..] :: id in ids;
      (if ids[0] in byId then [byId[ids[0]]] else []) + Resolve(ids[1..], byId)
  }

  /** Resolving two id lists one after the other is resolving their concatenation. */
  lemma {:induction false} ResolveAppend(a: seq<string>, b: seq<string>, byId: map<string, Syllable>)
    ensures Resolve(a + b, byId) == Resolve(a, byId) + Resolve(b, byId)
  {
    if a == [] {
      assert a + b == b;
    } else {
      assert (a + b)[0] == a[0];
      assert (a + b)[1..] == a[1..] + b;
      ResolveAppend(a[1..], b, byId);
    }
  }

  /** An id list where no id is in the dictionary resolves to nothing. */
  lemma {:induction false} ResolveMissing(ids: seq<string>, byId: map<string, Syllable>)
    requires forall id | id in ids :: id !in byId
    ensures Resolve(ids, byId) == []
  {
    if ids != [] {
      assert ids[0] in ids;
      assert forall id | id in ids[1..] :: id in ids;
      ResolveMissing(ids[1..], byId);
    }
  }

  class SyllableDatabase {
    var syllablesById: map<string, Syllable>
    var allSyllables: seq<Syllable>

    /**
     * Every key is a non-empty id naming a listed syllable with that id; every listed syllable's
     * id is a key; no object is listed twice.
     */
    ghost predicate Valid()
      reads this
    {
      && (forall id | id in syllablesById ::
            id != "" && syllablesById[id].Id == id && syllablesById[id] in allSyllables)
      && (forall s | s in allSyllables :: s.Id in syllablesById)
      && (forall i, j | 0 <= i < j < |allSyllables| :: allSyllables[i] != allSyllables[j])
    }

    /** `new SyllableDatabase()`: empty. */
    constructor ()
      ensures Valid()
      ensures syllablesById == map[] && allSyllables == []
    {
      syllablesById := map[];
      allSyllables := [];
    }

    /** `GetById`: the syllable stored under `id`, if any; it carries that id and is listed. */
    function GetById(id: string): (r: Option<Syllable>)
      reads this
      ensures r.Some? <==> id in syllablesById
      ensures Valid() && r.Some? ==> r.value.Id == id && r.value in allSyllables
    {
      if id in syllablesById then Some(syllablesById[id]) else None
    }

    /**
     * `AddSyllable`: an empty id is an `ArgumentException` that changes nothing. Otherwise the
     * dictionary maps the id to `syllable`, and the list gains `syllable` at the end unless that
     * very object is already listed.
     */
    method AddSyllable(syllable: Syllable) returns (o: Outcome)
      requires Valid()
      modifies this
      ensures Valid()
      ensures syllable.Id == "" ==>
        o == Fail(ArgumentError("syllable")) && syllablesById == old(syllablesById) && allSyllables == old(allSyllables)
      ensures syllable.Id != "" ==> o == Pass && syllablesById == old(syllablesById)[syllable.Id := syllable]
      ensures syllable.Id != "" ==>
        allSyllables == if syllable in old(allSyllables) then old(allSyllables) else old(allSyllables) + [syllable]
      ensures syllable.Id != "" ==> GetById(syllable.Id) == Some(syllable)
      ensures forall id | id != syllable.Id :: GetById(id) == old(GetById(id))
    {
      if syllable.Id == "" {
        return Fail(ArgumentError("syllable"));
      }
      syllablesById := syllablesById[syllable.Id := syllable];
      if syllable !in allSyllables {
        allSyllables := allSyllables + [syllable];
      }
      return Pass;
    }

    /** `GetAll`: the listed syllables, each once, each reachable by its id. */
    function GetAll(): (r: seq<Syllable>)
      reads this
      ensures Valid() ==> forall s | s in r :: GetById(s.Id).Some?
      ensures Valid() ==> forall i, j | 0 <= i < j < |r| :: r[i] != r[j]
    {
      allSyllables
    }

    /** `GetInitialSyllables`: the listed syllables that may open a name, in list order. */
    function GetInitialSyllables(): (r: seq<Syllable>)
      reads this
      ensures forall s | s in r :: s in GetAll() && CanOpen(s)
      ensures forall s | s in GetAll() && CanOpen(s) :: s in r
    {
      Filter(allSyllables, CanOpen)
    }

    /** `GetFinalSyllables`: the listed syllables that may close a name, in list order. */
    function GetFinalSyllables(): (r: seq<Syllable>)
      reads this
      ensures forall s | s in r :: s in GetAll() && CanClose(s)
      ensures forall s | s in GetAll() && CanClose(s) :: s in r
    {
      Filter(allSyllables, CanClose)
    }

    /**
     * `GetFollowingSyllables`: with a non-empty allow-list, the allow-listed ids resolved through
     * the dictionary in allow-list order, missing ids skipped; otherwise every listed syllable whose
     * id is not on the deny-list, in list order.
     */
    function GetFollowingSyllables(previous: Syllable): (r: seq<Syllable>)
      reads this
      ensures var allow := previous.Constraints.CanFollowSyllables;
        |allow| > 0 ==> (Valid() ==> forall s | s in r :: s.Id in allow && s in GetAll())
      ensures var allow := previous.Constraints.CanFollowSyllables;
        |allow| > 0 ==> forall id | id in allow && GetById(id).Some? :: GetById(id).value in r
      ensures var allow := previous.Constraints.CanFollowSyllables;
        var deny := previous.Constraints.CannotFollowSyllables;
        |allow| == 0 ==>
          (forall s | s in r :: s in GetAll() && s.Id !in deny) &&
          (forall s | s in GetAll() && s.Id !in deny :: s in r)
    {
      var allow := previous.Constraints.CanFollowSyllables;
      var deny := previous.Constraints.CannotFollowSyllables;
      if |allow| > 0 then Resolve(allow, syllablesById)
      else Filter(allSyllables, (s: Syllable) => s.Id !in deny)
    }

    /** `Clear`: both the dictionary and the list become empty, so no id resolves any more. */
    method Clear()
      modifies this
      ensures Valid()
      ensures syllablesById == map[] && allSyllables == []
      ensures forall id :: GetById(id) == None
    {
      syllablesById := map[];
      allSyllables := [];
    }
  }

  /** Two different objects with the same id: the second wins the lookup, but both stay listed. */
  method DuplicateIdKeepsBoth(a: Syllable, b: Syllable) returns (all: seq<Syllable>, found: Option<Syllable>)
    requires a.Id == b.Id && a.Id != "" && a != b
    ensures all == [a, b] && found == Some(b)
  {
    var db := new SyllableDatabase();
    var _ := db.AddSyllable(a);
    var _ := db.AddSyllable(b);
    all := db.GetAll();
    found := db.GetById(a.Id);
  }

  /** Adding the same object twice lists it once. */
  method ReAddSameObject(s: Syllable) returns (all: seq<Syllable>)
    requires s.Id != ""
    ensures all == [s]
  {
    var db := new SyllableDatabase();
    var _ := db.AddSyllable(s);
    var _ := db.AddSyllable(s);
    all := db.GetAll();
  }

  /** An id added and then cleared no longer resolves, and an id never added does not either. */
  method ClearedIdIsMissing(s: Syllable, other: string) returns (afterClear: Option<Syllable>, never: Option<Syllable>)
    requires s.Id != "" && other != s.Id
    ensures afterClear == None && never == None
  {
    var db := new SyllableDatabase();
    var _ := db.AddSyllable(s);
    never := db.GetById(other);
    db.Clear();
    afterClear := db.GetById(s.Id);
  }
}
