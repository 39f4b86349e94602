/**
 * The saved-connection list (internal/config/config.go).
 *
 * `Store` holds the `Connections` slice of a `Config` as a sequence that its
 * methods replace in place. Writing the file is left abstract: each call to
 * `Save` bumps a counter, and the error it returns is an input.
 */
module Config {
  import opened Wrappers
  import opened Models

  /** The index of the first saved connection called `name`, if any. */
  function FindFirst(cs: seq<SavedConnection>, name: string): (r: Option<nat>)
    ensures r.Some? ==> r.value < |cs| && cs[r.value].Name == name
    ensures r.Some? ==> forall j :: 0 <= j < r.value ==> cs[j].Name != name
    ensures r.None? <==> forall j :: 0 <= j < |cs| ==> cs[j].Name != name
  {
    if cs == [] then None
    else if cs[0].Name == name then Some(0)
    else match FindFirst(cs[1..], name)
      case None => None
      case Some(k) => Some(k + 1)
  }

  /** The first saved connection called `name`. */
  function Lookup(cs: seq<SavedConnection>, name: string): Option<SavedConnection>
  {
    match FindFirst(cs, name)
    case None => None
    case Some(i) => Some(cs[i])
  }

  /** The list after saving `c`: the first entry of the same name replaced, or `c` appended. */
  function Upsert(cs: seq<SavedConnection>, c: SavedConnection): seq<SavedConnection>
  {
    match FindFirst(cs, c.Name)
    case Some(i) => cs[i := c]
    case None => cs + [c]
  }

  /** The list after deleting the first entry called `name`, if there is one. */
  function Remove(cs: seq<SavedConnection>, name: string): seq<SavedConnection>
  {
    match FindFirst(cs, name)
    case Some(i) => cs[..i] + cs[i + 1..]
    case None => cs
  }

  predicate DistinctNames(cs: seq<SavedConnection>) {
    forall i, j :: 0 <= i < j < |cs| ==> cs[i].Name != cs[j].Name
  }

  /** A name that occurs at index `i`, with no earlier occurrence, is found at `i`. */
  lemma FindFirstAt(cs: seq<SavedConnection>, name: string, i: nat)
    requires i < |cs| && cs[i].Name == name
    requires forall j :: 0 <= j < i ==> cs[j].Name != name
    ensures FindFirst(cs, name) == Some(i)
  {
  }

  /**
   * Saving under a name already present replaces the first such entry in
   * place: same length, the other entries unchanged.
   */
  lemma UpsertExisting(cs: seq<SavedConnection>, c: SavedConnection, i: nat)
    requires FindFirst(cs, c.Name) == Some(i)
    ensures |Upsert(cs, c)| == |cs| && Upsert(cs, c)[i] == c
    ensures forall j :: 0 <= j < |cs| && j != i ==> Upsert(cs, c)[j] == cs[j]
  {
  }

  /** Saving under a new name appends at the end and leaves the earlier entries as they were. */
  lemma UpsertFresh(cs: seq<SavedConnection>, c: SavedConnection)
    requires Lookup(cs, c.Name) == None
    ensures |Upsert(cs, c)| == |cs| + 1 && Upsert(cs, c)[|cs|] == c
    ensures Upsert(cs, c)[..|cs|] == cs
  {
    assert (cs + [c])[..|cs|] == cs;
  }

  /** After saving `c`, looking up its name gives `c`; other names look up as before. */
  lemma LookupUpsert(cs: seq<SavedConnection>, c: SavedConnection, name: string)
    ensures Lookup(Upsert(cs, c), name) == if name == c.Name then Some(c) else Lookup(cs, name)
  {
    var u := Upsert(cs, c);
    match FindFirst(cs, c.Name)
    case Some(i) =>
      if name == c.Name {
        FindFirstAt(u, name, i);
      } else {
        match FindFirst(cs, name)
        case Some(k) =>
          assert u[k] == cs[k];
          FindFirstAt(u, name, k);
        case None =>
          assert forall j :: 0 <= j < |u| ==> u[j].Name != name by {
            forall j | 0 <= j < |u| ensures u[j].Name != name {
              if j != i { assert u[j] == cs[j]; }
            }
          }
      }
    case None =>
      assert forall j :: 0 <= j < |cs| ==> u[j] == cs[j];
      if name == c.Name {
        FindFirstAt(u, name, |cs|);
      } else {
        match FindFirst(cs, name)
        case Some(k) =>
          FindFirstAt(u, name, k);
        case None =>
          assert forall j :: 0 <= j < |u| ==> u[j].Name != name by {
            forall j | 0 <= j < |u| ensures u[j].Name != name {
              if j < |cs| { assert u[j] == cs[j]; }
            }
          }
      }
  }

  /** Saving keeps names distinct when they were distinct before. */
  lemma UpsertDistinct(cs: seq<SavedConnection>, c: SavedConnection)
    requires DistinctNames(cs)
    ensures DistinctNames(Upsert(cs, c))
  {
    var u := Upsert(cs, c);
    match FindFirst(cs, c.Name)
    case Some(i) =>
      forall a, b | 0 <= a < b < |u| ensures u[a].Name != u[b].Name {
        if a == i { assert u[b] == cs[b]; }
        else if b == i { assert u[a] == cs[a]; }
        else { assert u[a] == cs[a] && u[b] == cs[b]; }
      }
    case None =>
      forall a, b | 0 <= a < b < |u| ensures u[a].Name != u[b].Name {
        assert u[a] == cs[a];
        if b < |cs| { assert u[b] == cs[b]; }
      }
  }

  /**
   * Deleting removes exactly the first entry called `name` and keeps the
   * others in their order; an absent name leaves the list as it is.
   */
  lemma RemoveFirst(cs: seq<SavedConnection>, name: string)
    ensures FindFirst(cs, name).None? ==> Remove(cs, name) == cs
    ensures FindFirst(cs, name).Some? ==>
              var i := FindFirst(cs, name).value;
              && |Remove(cs, name)| == |cs| - 1
              && (forall j :: 0 <= j < i ==> Remove(cs, name)[j] == cs[j])
              && (forall j :: i <= j < |cs| - 1 ==> Remove(cs, name)[j] == cs[j + 1])
  {
  }

  /** With distinct names, a deleted name is gone. */
  lemma LookupRemove(cs: seq<SavedConnection>, name: string)
    requires DistinctNames(cs)
    ensures Lookup(Remove(cs, name), name) == None
  {
    var r := Remove(cs, name);
    match FindFirst(cs, name)
    case None =>
    case Some(i) =>
      forall j | 0 <= j < |r| ensures r[j].Name != name {
        if j < i { assert r[j] == cs[j]; } else { assert r[j] == cs[j + 1]; }
      }
  }

  /** Saving a connection under a new name and deleting it again gives back the list. */
  lemma RemoveUpsertFresh(cs: seq<SavedConnection>, c: SavedConnection)
    requires Lookup(cs, c.Name) == None
    ensures Remove(Upsert(cs, c), c.Name) == cs
  {
    var u := Upsert(cs, c);
    assert u == cs + [c];
    FindFirstAt(u, c.Name, |cs|);
    assert u[..|cs|] == cs;
  }

  /**
   * The `Connections` list of a loaded configuration. `saves` counts the
   * calls to `Save`; what it writes and where is not modelled.
   */
  class Store {
    var connections: seq<SavedConnection>
    var saves: nat

    constructor(cs: seq<SavedConnection>)
      ensures connections == cs && saves == 0
    {
      connections := cs;
      saves := 0;
    }

    /**
     * Saves `conn` under its name: the first entry with that name is
     * overwritten in place, otherwise `conn` is appended; then `Save` runs
     * and its error (`saveErr`) is returned.
     */
    method AddConnection(conn: SavedConnection, saveErr: Option<string>) returns (err: Option<string>)
      modifies this
      ensures connections == Upsert(old(connections), conn)
      ensures saves == old(saves) + 1
      ensures err == saveErr
    {
      var i := 0;
      while i < |connections|
        invariant 0 <= i <= |connections|
        invariant connections == old(connections)
        invariant forall j :: 0 <= j < i ==> connections[j].Name != conn.Name
      {
        if connections[i].Name == conn.Name {
          FindFirstAt(connections, conn.Name, i);
          connections := connections[i := conn];
          saves := saves + 1;
          return saveErr;
        }
        i := i + 1;
      }
      connections := connections + [conn];
      saves := saves + 1;
      return saveErr;
    }

    /**
     * Deletes the first entry called `name` and saves; when there is none,
     * nothing changes, nothing is saved and no error is returned.
     */
    method RemoveConnection(name: string, saveErr: Option<string>) returns (err: Option<string>)
      modifies this
      ensures connections == Remove(old(connections), name)
      ensures saves == old(saves) + (if FindFirst(old(connections), name).Some? then 1 else 0)
      ensures err == if FindFirst(old(connections), name).Some? then saveErr else None
    {
      var i := 0;
      while i < |connections|
        invariant 0 <= i <= |connections|
        invariant connections == old(connections)
        invariant forall j :: 0 <= j < i ==> connections[j].Name != name
      {
        if connections[i].Name == name {
          FindFirstAt(connections, name, i);
          connections := connections[..i] + connections[i + 1..];
          saves := saves + 1;
          return saveErr;
        }
        i := i + 1;
      }
      return None;
    }

    /** The first entry called `name`, or nothing. */
    method GetConnection(name: string) returns (r: Option<SavedConnection>)
      ensures r == Lookup(connections, name)
      ensures r.Some? <==> exists j :: 0 <= j < |connections| && connections[j].Name == name
      ensures r.Some? ==> r.value.Name == name
    {
      var i := 0;
      while i < |connections|
        invariant 0 <= i <= |connections|
        invariant forall j :: 0 <= j < i ==> connections[j].Name != name
      {
        if connections[i].Name == name {
          FindFirstAt(connections, name, i);
          return Some(connections[i]);
        }
        i := i + 1;
      }
      return None;
    }
  }
}
