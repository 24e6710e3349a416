/**
 * flatten_dict (server.py): a nested record becomes one level of keys. A
 * non-dict value is stored under its key, prefixed "parent[key]" by the
 * immediate parent key only; dict values are descended into. The accumulator is
 * shared by the recursion, except that `if not output: output = dict()` also
 * replaces an EMPTY accumulator, so a nested dict met while nothing has been
 * stored yet is flattened into a dict that is then thrown away.
 */
module Flatten {
  import opened Results
  import opened PyValue

  /** The key a non-dict value is stored under. */
  function ComposeKey(prefix: string, key: string): string {
    if prefix != "" then prefix + "[" + key + "]" else key
  }

  /** The accumulator after the loop over `fields` has run, starting from `acc`. */
  function FlattenInto(fields: seq<Entry>, prefix: string, acc: seq<Entry>): seq<Entry>
    decreases fields
  {
    if fields == [] then acc
    else
      var e := fields[0];
      var acc' :=
        if e.value.Dict? then
          // the recursive call replaces an empty accumulator by its own dict
          if acc == [] then acc else FlattenInto(e.value.fields, e.key, acc)
        else Put(acc, ComposeKey(prefix, e.key), e.value);
      FlattenInto(fields[1..], prefix, acc')
  }

  /** The loop over `fields` from entry i on is entry i's turn, then the rest. */
  lemma FlattenStep(fields: seq<Entry>, i: int, prefix: string, acc: seq<Entry>)
    requires 0 <= i < |fields|
    ensures FlattenInto(fields[i..], prefix, acc) == FlattenInto(fields[i + 1..], prefix, FlattenInto([fields[i]], prefix, acc))
  {
    assert fields[i..] == [fields[i]] + fields[i + 1..];
    FlattenSplit([fields[i]], fields[i + 1..], prefix, acc);
  }

  /** flatten_dict(v): `v.items()` raises on anything but a dict. */
  function Flattened(v: Value): Result<seq<Entry>, Failure> {
    if v.Dict? then Ok(FlattenInto(v.fields, "", [])) else Err(AttributeError("items"))
  }

  /** The `output` dict that flatten_dict fills. */
  class Accumulator {
    var entries: seq<Entry>

    constructor ()
      ensures entries == []
    {
      entries := [];
    }

    /** output[k] = v */
    method Store(k: string, v: Value)
      modifies this
      ensures entries == Put(old(entries), k, v)
    {
      entries := Put(entries, k, v);
    }
  }

  /** flatten_dict(data, prefix, output), with `output` None or a dict. */
  method FlattenDict(data: Value, prefix: string, output: Accumulator?) returns (out: Accumulator)
    requires data.Dict?
    modifies output
    ensures output != null && old(output.entries) != [] ==> out == output
    ensures output == null || old(output.entries) == [] ==> fresh(out)
    ensures output != null && old(output.entries) == [] ==> output.entries == []
    ensures out.entries == FlattenInto(data.fields, prefix, if output == null then [] else old(output.entries))
    decreases data, 2
  {
    if output == null || output.entries == [] {
      out := new Accumulator();
    } else {
      out := output;
    }
    FlattenFields(data, prefix, out);
  }

  /** The loop of flatten_dict: every entry of `data`, in order, into `output`. */
  method FlattenFields(data: Value, prefix: string, output: Accumulator)
    requires data.Dict?
    modifies output
    ensures output.entries == FlattenInto(data.fields, prefix, old(output.entries))
    decreases data, 1
  {
    ghost var start := output.entries;
    var i := 0;
    while i < |data.fields|
      invariant 0 <= i <= |data.fields|
      invariant FlattenInto(data.fields, prefix, start) == FlattenInto(data.fields[i..], prefix, output.entries)
    {
      ghost var before := output.entries;
      assert data.fields[i] in data.fields;
      FlattenEntry(data.fields[i], prefix, output);
      FlattenStep(data.fields, i, prefix, before);
      i := i + 1;
    }
  }

  /**
   * One turn of flatten_dict's loop: a dict value is flattened into `output`
   * under its own key, any other value is stored under the composed key.
   */
  method FlattenEntry(e: Entry, prefix: string, output: Accumulator)
    modifies output
    ensures output.entries == FlattenInto([e], prefix, old(output.entries))
    decreases e.value, 3
  {
    assert [e][1..] == [];
    if e.value.Dict? {
      var discarded := FlattenDict(e.value, e.key, output);
    } else {
      output.Store(ComposeKey(prefix, e.key), e.value);
    }
  }

  /** The top-level call flatten_dict(record). */
  method FlattenRecord(record: Value) returns (r: Result<seq<Entry>, Failure>)
    ensures r == Flattened(record)
  {
    if !record.Dict? {
      return Err(AttributeError("items"));
    }
    var acc := FlattenDict(record, "", null);
    r := Ok(acc.entries);
  }

  // ---------------------------------------------------------------------
  // Properties of the flattening
  // ---------------------------------------------------------------------

  predicate NoDictValues(fields: seq<Entry>) {
    forall j :: 0 <= j < |fields| ==> !fields[j].value.Dict?
  }

  lemma {:induction false} PutNoDictValues(fields: seq<Entry>, k: string, v: Value)
    requires NoDictValues(fields) && !v.Dict?
    ensures NoDictValues(Put(fields, k, v))
  {
    if fields != [] && fields[0].key != k {
      PutNoDictValues(fields[1..], k, v);
    }
  }

  /** A dict value is never stored: the output is flat. */
  lemma {:induction false} FlattenIsFlat(fields: seq<Entry>, prefix: string, acc: seq<Entry>)
    requires NoDictValues(acc)
    ensures NoDictValues(FlattenInto(fields, prefix, acc))
    decreases fields
  {
    if fields != [] {
      var e := fields[0];
      if e.value.Dict? {
        if acc != [] {
          FlattenIsFlat(e.value.fields, e.key, acc);
          FlattenIsFlat(fields[1..], prefix, FlattenInto(e.value.fields, e.key, acc));
        } else {
          FlattenIsFlat(fields[1..], prefix, acc);
        }
      } else {
        PutNoDictValues(acc, ComposeKey(prefix, e.key), e.value);
        FlattenIsFlat(fields[1..], prefix, Put(acc, ComposeKey(prefix, e.key), e.value));
      }
    }
  }

  /** Each composed key appears once in the output. */
  lemma {:induction false} FlattenKeysDistinct(fields: seq<Entry>, prefix: string, acc: seq<Entry>)
    requires DistinctKeys(acc)
    ensures DistinctKeys(FlattenInto(fields, prefix, acc))
    decreases fields
  {
    if fields != [] {
      var e := fields[0];
      if e.value.Dict? {
        if acc != [] {
          FlattenKeysDistinct(e.value.fields, e.key, acc);
          FlattenKeysDistinct(fields[1..], prefix, FlattenInto(e.value.fields, e.key, acc));
        } else {
          FlattenKeysDistinct(fields[1..], prefix, acc);
        }
      } else {
        PutDistinct(acc, ComposeKey(prefix, e.key), e.value);
        FlattenKeysDistinct(fields[1..], prefix, Put(acc, ComposeKey(prefix, e.key), e.value));
      }
    }
  }

  /** The loop works left to right: flattening xs + ys is flattening ys after xs. */
  lemma {:induction false} FlattenSplit(xs: seq<Entry>, ys: seq<Entry>, prefix: string, acc: seq<Entry>)
    ensures FlattenInto(xs + ys, prefix, acc) == FlattenInto(ys, prefix, FlattenInto(xs, prefix, acc))
    decreases xs
  {
    if xs == [] {
      assert xs + ys == ys;
    } else {
      var e := xs[0];
      assert (xs + ys)[0] == e && (xs + ys)[1..] == xs[1..] + ys;
      var acc' :=
        if e.value.Dict? then
          if acc == [] then acc else FlattenInto(e.value.fields, e.key, acc)
        else Put(acc, ComposeKey(prefix, e.key), e.value);
      FlattenSplit(xs[1..], ys, prefix, acc');
    }
  }

  /** The loop only stores, so the output never has fewer entries than it started with. */
  lemma {:induction false} FlattenNeverShrinks(fields: seq<Entry>, prefix: string, acc: seq<Entry>)
    ensures |FlattenInto(fields, prefix, acc)| >= |acc|
    decreases fields
  {
    if fields != [] {
      var e := fields[0];
      if e.value.Dict? {
        if acc != [] {
          FlattenNeverShrinks(e.value.fields, e.key, acc);
          FlattenNeverShrinks(fields[1..], prefix, FlattenInto(e.value.fields, e.key, acc));
        } else {
          FlattenNeverShrinks(fields[1..], prefix, acc);
        }
      } else {
        FlattenNeverShrinks(fields[1..], prefix, Put(acc, ComposeKey(prefix, e.key), e.value));
      }
    }
  }

  /** Keys once stored are never removed. */
  lemma {:induction false} FlattenKeepsKeys(fields: seq<Entry>, prefix: string, acc: seq<Entry>, k: string)
    requires k in Keys(acc)
    ensures k in Keys(FlattenInto(fields, prefix, acc))
    decreases fields
  {
    if fields != [] {
      var e := fields[0];
      if e.value.Dict? {
        FlattenKeepsKeys(e.value.fields, e.key, acc, k);
        FlattenKeepsKeys(fields[1..], prefix, FlattenInto(e.value.fields, e.key, acc), k);
      } else {
        PutKeys(acc, ComposeKey(prefix, e.key), e.value);
        FlattenKeepsKeys(fields[1..], prefix, Put(acc, ComposeKey(prefix, e.key), e.value), k);
      }
    }
  }

  /** A later write of the same composed key overwrites the earlier value. */
  lemma LastWriteWins(fields: seq<Entry>, prefix: string, acc: seq<Entry>, k: string, v: Value)
    requires !v.Dict?
    ensures Lookup(FlattenInto(fields + [Entry(k, v)], prefix, acc), ComposeKey(prefix, k)) == Some(v)
  {
    FlattenSplit(fields, [Entry(k, v)], prefix, acc);
    PutLookup(FlattenInto(fields, prefix, acc), ComposeKey(prefix, k), v, ComposeKey(prefix, k));
  }

  /**
   * A nested dict met while the accumulator is still empty is lost entirely: its
   * values reach a dict that the caller never sees.
   */
  lemma NestedLostWhileEmpty(k: string, inner: seq<Entry>, rest: seq<Entry>)
    ensures Flattened(Dict([Entry(k, Dict(inner))] + rest)) == Flattened(Dict(rest))
  {
    assert ([Entry(k, Dict(inner))] + rest)[1..] == rest;
  }

  /**
   * A non-dict value nested one level down is stored under "parent[key]" once
   * something has already been stored at the point where the parent is reached.
   */
  lemma NestedStoredUnderParent(xs: seq<Entry>, parent: string, inner: seq<Entry>, ys: seq<Entry>, k: string, v: Value)
    requires parent != ""
    requires FlattenInto(xs, "", []) != []
    requires Entry(k, v) in inner && !v.Dict?
    ensures Flattened(Dict(xs + [Entry(parent, Dict(inner))] + ys)).Ok?
    ensures parent + "[" + k + "]" in Keys(Flattened(Dict(xs + [Entry(parent, Dict(inner))] + ys)).value)
  {
    var acc := FlattenInto(xs, "", []);
    InnerStoresKey(inner, parent, acc, k, v);
    var afterInner := FlattenInto(inner, parent, acc);
    FlattenSplit(xs, [Entry(parent, Dict(inner))] + ys, "", []);
    assert xs + [Entry(parent, Dict(inner))] + ys == xs + ([Entry(parent, Dict(inner))] + ys);
    assert ([Entry(parent, Dict(inner))] + ys)[1..] == ys;
    FlattenKeepsKeys(ys, "", afterInner, ComposeKey(parent, k));
  }

  /** Flattening a dict into a non-empty output stores each of its non-dict values under the composed key. */
  lemma InnerStoresKey(inner: seq<Entry>, parent: string, acc: seq<Entry>, k: string, v: Value)
    requires acc != []
    requires Entry(k, v) in inner && !v.Dict?
    ensures ComposeKey(parent, k) in Keys(FlattenInto(inner, parent, acc))
  {
    var j :| 0 <= j < |inner| && inner[j] == Entry(k, v);
    assert inner == inner[..j] + [Entry(k, v)] + inner[j + 1..];
    var before := FlattenInto(inner[..j], parent, acc);
    FlattenNeverShrinks(inner[..j], parent, acc);
    FlattenSplit(inner[..j] + [Entry(k, v)], inner[j + 1..], parent, acc);
    FlattenSplit(inner[..j], [Entry(k, v)], parent, acc);
    PutKeys(before, ComposeKey(parent, k), v);
    FlattenKeepsKeys(inner[j + 1..], parent, FlattenInto(inner[..j] + [Entry(k, v)], parent, acc), ComposeKey(parent, k));
  }

  /** Every key the loop over `fields` may write: the composed key of each non-dict value, at any depth. */
  function WrittenKeys(fields: seq<Entry>, prefix: string): set<string>
    decreases fields
  {
    if fields == [] then {}
    else
      var e := fields[0];
      (if e.value.Dict? then WrittenKeys(e.value.fields, e.key) else {ComposeKey(prefix, e.key)})
      + WrittenKeys(fields[1..], prefix)
  }

  /** A key the loop never writes keeps the value it had. */
  lemma {:induction false} FlattenLeavesOthers(fields: seq<Entry>, prefix: string, acc: seq<Entry>, key: string)
    requires key !in WrittenKeys(fields, prefix)
    ensures Lookup(FlattenInto(fields, prefix, acc), key) == Lookup(acc, key)
    decreases fields
  {
    if fields != [] {
      var e := fields[0];
      if e.value.Dict? && acc == [] {
        FlattenLeavesOthers(fields[1..], prefix, acc, key);
      } else if e.value.Dict? {
        FlattenLeavesOthers(e.value.fields, e.key, acc, key);
        FlattenLeavesOthers(fields[1..], prefix, FlattenInto(e.value.fields, e.key, acc), key);
      } else {
        assert key != ComposeKey(prefix, e.key);
        PutLookup(acc, ComposeKey(prefix, e.key), e.value, key);
        FlattenLeavesOthers(fields[1..], prefix, Put(acc, ComposeKey(prefix, e.key), e.value), key);
      }
    }
  }

  /**
   * Flattening a dict stores each of its non-dict values under the composed key,
   * as it is, unless a later entry writes the same key.
   */
  lemma InnerStoresValue(inner: seq<Entry>, parent: string, acc: seq<Entry>, j: int)
    requires 0 <= j < |inner| && !inner[j].value.Dict?
    requires ComposeKey(parent, inner[j].key) !in WrittenKeys(inner[j + 1..], parent)
    ensures Lookup(FlattenInto(inner, parent, acc), ComposeKey(parent, inner[j].key)) == Some(inner[j].value)
  {
    assert inner == inner[..j] + [inner[j]] + inner[j + 1..];
    FlattenSplit(inner[..j] + [inner[j]], inner[j + 1..], parent, acc);
    LastWriteWins(inner[..j], parent, acc, inner[j].key, inner[j].value);
    FlattenLeavesOthers(inner[j + 1..], parent, FlattenInto(inner[..j] + [inner[j]], parent, acc), ComposeKey(parent, inner[j].key));
  }

  /**
   * Once something is stored, a non-dict value one level down ends up under
   * "parent[key]" as it is, unless a later entry writes that key.
   */
  lemma NestedValueUnderParent(xs: seq<Entry>, parent: string, inner: seq<Entry>, ys: seq<Entry>, j: int)
    requires parent != ""
    requires FlattenInto(xs, "", []) != []
    requires 0 <= j < |inner| && !inner[j].value.Dict?
    requires parent + "[" + inner[j].key + "]" !in WrittenKeys(inner[j + 1..], parent)
    requires parent + "[" + inner[j].key + "]" !in WrittenKeys(ys, "")
    ensures Flattened(Dict(xs + [Entry(parent, Dict(inner))] + ys)).Ok?
    ensures Lookup(Flattened(Dict(xs + [Entry(parent, Dict(inner))] + ys)).value, parent + "[" + inner[j].key + "]")
         == Some(inner[j].value)
  {
    var acc := FlattenInto(xs, "", []);
    InnerStoresValue(inner, parent, acc, j);
    var afterInner := FlattenInto(inner, parent, acc);
    FlattenSplit(xs, [Entry(parent, Dict(inner))] + ys, "", []);
    assert xs + [Entry(parent, Dict(inner))] + ys == xs + ([Entry(parent, Dict(inner))] + ys);
    assert ([Entry(parent, Dict(inner))] + ys)[1..] == ys;
    FlattenLeavesOthers(ys, "", afterInner, ComposeKey(parent, inner[j].key));
  }

  /** A later nested value with the same composed key replaces an earlier one: {"p": {"k": 1, "p": {"k": 2}}} keeps 2 under "p[k]". */
  lemma LaterNestedWriteWins()
    ensures Flattened(Dict([Entry("id", Int(0)), Entry("p", Dict([Entry("k", Int(1)), Entry("p", Dict([Entry("k", Int(2))]))]))])).Ok?
    ensures Lookup(Flattened(Dict([Entry("id", Int(0)), Entry("p", Dict([Entry("k", Int(1)), Entry("p", Dict([Entry("k", Int(2))]))]))])).value, "p[k]")
         == Some(Int(2))
  {
    var deep := [Entry("k", Int(2))];
    var inner := [Entry("k", Int(1)), Entry("p", Dict(deep))];
    var top := [Entry("id", Int(0)), Entry("p", Dict(inner))];
    var acc := Put([], ComposeKey("", "id"), Int(0));
    var once := Put(acc, ComposeKey("p", "k"), Int(1));
    assert acc != [] && once != [];
    assert FlattenInto(top, "", []) == FlattenInto(top[1..], "", acc);
    assert top[1..][0] == Entry("p", Dict(inner)) && top[1..][1..] == [];
    assert FlattenInto(top[1..], "", acc) == FlattenInto([], "", FlattenInto(inner, "p", acc));
    assert FlattenInto(inner, "p", acc) == FlattenInto(inner[1..], "p", once);
    assert inner[1..][0] == Entry("p", Dict(deep)) && inner[1..][1..] == [];
    assert FlattenInto(inner[1..], "p", once) == FlattenInto([], "p", FlattenInto(deep, "p", once));
    assert [] + deep == deep;
    LastWriteWins([], "p", once, "k", Int(2));
    assert ComposeKey("p", "k") == "p[k]";
  }

  /** The prefix is only the immediate parent key, never the whole path. */
  lemma PrefixIsImmediateParent()
    ensures Flattened(Dict([Entry("id", Int(1)), Entry("a", Dict([Entry("b", Dict([Entry("c", Int(2))]))]))]))
         == Ok([Entry("id", Int(1)), Entry("b[c]", Int(2))])
  {
    var c := [Entry("c", Int(2))];
    var b := [Entry("b", Dict(c))];
    var acc := [Entry("id", Int(1))];
    assert ComposeKey("b", "c") == "b[c]";
    assert Put(acc, "b[c]", Int(2)) == acc + [Entry("b[c]", Int(2))] by {
      assert acc[0].key != "b[c]";
      assert acc[1..] == [];
    }
    assert FlattenInto(c, "b", acc) == FlattenInto([], "b", Put(acc, "b[c]", Int(2)));
    assert FlattenInto(b, "a", acc) == acc + [Entry("b[c]", Int(2))];
    assert FlattenInto([Entry("a", Dict(b))], "", acc) == acc + [Entry("b[c]", Int(2))];
    var top := [Entry("id", Int(1)), Entry("a", Dict(b))];
    assert ComposeKey("", "id") == "id";
    assert top[1..] == [Entry("a", Dict(b))];
    assert FlattenInto(top, "", []) == FlattenInto(top[1..], "", acc);
    assert acc + [Entry("b[c]", Int(2))] == [Entry("id", Int(1)), Entry("b[c]", Int(2))];
  }
}
