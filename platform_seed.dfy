/**
 * The data migration that runs after the schema is created: it makes sure
 * the five default operating systems are platforms, inserting each one that
 * no platform is named after yet, in a fixed order.
 */
module PlatformSeed {
  import opened Seqs
  import opened Tables
  import opened Entities
  import opened Store
  import PlatformMapper

  /** The platforms every installation starts with, in the order they are inserted. */
  const DefaultPlatforms: seq<string> := ["Windows", "Linux", "macOS", "iOS", "Android"]

  /** Some platform carries that name: the migration's `SELECT id ... WHERE name = ?` finds a row. */
  predicate Taken(t: Table<Platform>, name: string) {
    exists x :: x in t.rows && x.rec.name == name
  }

  /** One platform record per name, in order. */
  function Platforms(names: seq<string>): (recs: seq<Platform>)
    ensures |recs| == |names|
    ensures forall k :: 0 <= k < |names| ==> recs[k] == Platform(names[k])
  {
    seq(|names|, k requires 0 <= k < |names| => Platform(names[k]))
  }

  /**
   * One round of the loop: nothing changes when the name is taken;
   * otherwise a platform of that name is appended. Either way the name is
   * taken afterwards, the old rows stay as they were, and unique names stay
   * unique.
   */
  function SeedOne(t: Table<Platform>, name: string): (r: Table<Platform>)
    requires Tables.Valid(t)
    ensures Tables.Valid(r) && t.rows <= r.rows && Taken(r, name)
    ensures Taken(t, name) ==> r == t
    ensures UniquePlatformNames(t.rows) ==> UniquePlatformNames(r.rows)
  {
    if Taken(t, name) then t
    else
      var (u, row) := Insert(t, Platform(name));
      assert row in u.rows;
      u
  }

  /** The platforms table after the loop has run over `names`. */
  function Seeded(t: Table<Platform>, names: seq<string>): (r: Table<Platform>)
    requires Tables.Valid(t)
    ensures Tables.Valid(r)
    decreases |names|
  {
    if names == [] then t else SeedOne(Seeded(t, names[..|names| - 1]), names[|names| - 1])
  }

  /** One round of the loop of `postSchemaChange`: look the name up, insert it where nothing is found. */
  method SeedName(db: Database, name: string)
    requires db.Valid()
    modifies db`platforms
    ensures db.Valid()
    ensures db.platforms == SeedOne(old(db.platforms), name)
  {
    var existing := Select(db.platforms, PlatformMapper.NameIs(name));
    if existing == [] {
      assert !Taken(db.platforms, name);
      // The migration inserts through the query builder; the row is the one the mapper would store.
      var _ := PlatformMapper.Insert(db, Platform(name));
    } else {
      assert existing[0] in db.platforms.rows;
    }
  }

  /** The loop of `postSchemaChange` over a list of names. */
  method SeedNames(db: Database, names: seq<string>)
    requires db.Valid()
    modifies db`platforms
    ensures db.Valid()
    ensures db.platforms == Seeded(old(db.platforms), names)
  {
    var i := 0;
    while i < |names|
      invariant i <= |names|
      invariant db.Valid()
      invariant db.platforms == Seeded(old(db.platforms), names[..i])
    {
      SeedName(db, names[i]);
      assert names[..i + 1][..i] == names[..i];
      i := i + 1;
    }
    assert names[..i] == names;
  }

  /** `postSchemaChange`: the loop over the five default names. */
  method PostSchemaChange(db: Database)
    requires db.Valid()
    modifies db`platforms
    ensures db.Valid()
    ensures db.platforms == Seeded(old(db.platforms), DefaultPlatforms)
  {
    SeedNames(db, DefaultPlatforms);
  }

  /** A name taken in a table is taken in every table that extends it. */
  lemma TakenStays(t: Table<Platform>, u: Table<Platform>, name: string)
    requires t.rows <= u.rows && Taken(t, name)
    ensures Taken(u, name)
  {
    var x :| x in t.rows && x.rec.name == name;
    assert x in u.rows;
  }

  /** Seeding only appends: every platform that existed keeps its id, its name and its place. */
  lemma {:induction false} SeededExtends(t: Table<Platform>, names: seq<string>)
    requires Tables.Valid(t)
    ensures t.rows <= Seeded(t, names).rows
    decreases |names|
  {
    if names != [] {
      SeededExtends(t, names[..|names| - 1]);
    }
  }

  /** Afterwards every seeded name is taken. */
  lemma {:induction false} SeededTakesAll(t: Table<Platform>, names: seq<string>)
    requires Tables.Valid(t)
    ensures forall k :: 0 <= k < |names| ==> Taken(Seeded(t, names), names[k])
    decreases |names|
  {
    if names != [] {
      var n := |names| - 1;
      var before := Seeded(t, names[..n]);
      SeededTakesAll(t, names[..n]);
      forall k | 0 <= k < n ensures Taken(Seeded(t, names), names[k]) {
        assert names[..n][k] == names[k];
        TakenStays(before, Seeded(t, names), names[k]);
      }
    }
  }

  /** Where every name is already taken, seeding changes nothing. */
  lemma {:induction false} SeededNoOp(t: Table<Platform>, names: seq<string>)
    requires Tables.Valid(t)
    requires forall k :: 0 <= k < |names| ==> Taken(t, names[k])
    ensures Seeded(t, names) == t
    decreases |names|
  {
    if names != [] {
      var n := |names| - 1;
      SeededNoOp(t, names[..n]);
    }
  }

  /** Running the migration a second time leaves the platforms exactly as the first run left them. */
  lemma SeedIdempotent(t: Table<Platform>)
    requires Tables.Valid(t)
    ensures Seeded(Seeded(t, DefaultPlatforms), DefaultPlatforms) == Seeded(t, DefaultPlatforms)
  {
    SeededTakesAll(t, DefaultPlatforms);
    SeededNoOp(Seeded(t, DefaultPlatforms), DefaultPlatforms);
  }

  /** Seeding keeps platform names unique, whatever names it is given. */
  lemma {:induction false} SeededKeepsNamesUnique(t: Table<Platform>, names: seq<string>)
    requires Tables.Valid(t) && UniquePlatformNames(t.rows)
    ensures UniquePlatformNames(Seeded(t, names).rows)
    decreases |names|
  {
    if names != [] {
      SeededKeepsNamesUnique(t, names[..|names| - 1]);
    }
  }

  /**
   * Where none of the names is taken and no name repeats, seeding inserts
   * all of them, in order, under consecutive ids.
   */
  lemma {:induction false} SeededInsertsAll(t: Table<Platform>, names: seq<string>)
    requires Tables.Valid(t) && NoDuplicates(names)
    requires forall k :: 0 <= k < |names| ==> !Taken(t, names[k])
    ensures Seeded(t, names) == InsertAll(t, Platforms(names))
    decreases |names|
  {
    if names != [] {
      var n := |names| - 1;
      var init := names[..n];
      SeededInsertsAll(t, init);
      assert Platforms(names)[..n] == Platforms(init);
      var before := InsertAll(t, Platforms(init));
      InsertAllAppends(t, Platforms(init));
      var added := Numbered(t.nextId, Platforms(init));
      forall x | x in before.rows ensures x.rec.name != names[n] {
        if x !in t.rows {
          var j :| 0 <= j < n && x == added[j];
          assert x.rec.name == names[j];
        }
      }
    }
  }

  /** The five default names are distinct. */
  lemma DefaultsDistinct()
    ensures NoDuplicates(DefaultPlatforms)
  {
    forall i, j | 0 <= i < j < |DefaultPlatforms| ensures DefaultPlatforms[i] != DefaultPlatforms[j] {
      assert DefaultPlatforms[i][0] != DefaultPlatforms[j][0] || |DefaultPlatforms[i]| != |DefaultPlatforms[j]|;
    }
  }

  /** On a fresh installation the five defaults become platforms 1 to 5, in order. */
  lemma SeedFresh()
    ensures Seeded(Table([], 1), DefaultPlatforms).rows == Numbered(1, Platforms(DefaultPlatforms))
  {
    var t: Table<Platform> := Table([], 1);
    DefaultsDistinct();
    SeededInsertsAll(t, DefaultPlatforms);
    InsertAllAppends(t, Platforms(DefaultPlatforms));
  }
}
