/** The CSV case loader of the port revision (`port/src/load/data/csv.rs`):
    records are pulled from a reader one at a time until the size limit is
    reached, the reader runs dry, or a record cannot be read. */
module PortLoad {
  import opened Common

  /** A deserialised record: column name to cell. */
  type Record = map<string, string>

  /** What one pull from the reader yields: a record, or a malformed record
      with the debug text of the csv error. */
  datatype Pulled = Record(fields: Record) | Malformed(debug: string)

  /** The loader as a function of the reader's records and its position:
      the loaded records (or the error) and the position after the load. */
  function Loaded(items: seq<Pulled>, pos: nat, size: nat): (Result<seq<Record>, Error>, nat)
    requires pos <= |items|
    decreases |items| - pos
  {
    if pos == |items| then (Result.Ok([]), pos)
    else if size == 0 then (Result.Ok([]), pos + 1)
    else
      match items[pos]
      case Malformed(d) => (Result.Err(Error("csv", d)), pos + 1)
      case Record(m) =>
        var rest := Loaded(items, pos + 1, size - 1);
        if rest.0.Ok? then (Result.Ok([m] + rest.0.value), rest.1) else rest
  }

  /** What a load promises: at most `size` records, those the reader holds
      in its order; fewer only when the reader ran dry; at the limit one
      more record is consumed; an error is the first malformed record
      before the limit. */
  lemma {:induction false} LoadedSpec(items: seq<Pulled>, pos: nat, size: nat)
    requires pos <= |items|
    ensures var r := Loaded(items, pos, size);
      && pos <= r.1 <= |items|
      && (r.0.Ok? ==> |r.0.value| <= size && pos + |r.0.value| <= |items|)
      && (r.0.Ok? ==> forall k | 0 <= k < |r.0.value| :: items[pos + k] == Record(r.0.value[k]))
      && (r.0.Ok? && |r.0.value| < size ==> r.1 == |items| == pos + |r.0.value|)
      && (r.0.Ok? && |r.0.value| == size ==> r.1 == if pos + size < |items| then pos + size + 1 else |items|)
      && (r.0.Err? ==>
            pos < r.1 && r.1 - pos - 1 < size && items[r.1 - 1].Malformed? &&
            r.0.error == Error("csv", items[r.1 - 1].debug) &&
            forall k | pos <= k < r.1 - 1 :: items[k].Record?)
    decreases |items| - pos
  {
    if pos < |items| && size > 0 && items[pos].Record? {
      LoadedSpec(items, pos + 1, size - 1);
      var rest := Loaded(items, pos + 1, size - 1);
      if rest.0.Ok? {
        var v := [items[pos].fields] + rest.0.value;
        assert forall k | 1 <= k < |v| :: v[k] == rest.0.value[k - 1];
      }
    }
  }

  /** A csv reader over a fixed list of records; `pos` is how many it has
      handed out. */
  class CsvReader {
    const items: seq<Pulled>
    var pos: nat

    constructor (items: seq<Pulled>)
      ensures this.items == items && pos == 0
    {
      this.items := items;
      pos := 0;
    }

    predicate Valid()
      reads this
    {
      pos <= |items|
    }

    /** The next record of `deserialize()`, or None once the reader is
        exhausted. */
    method Next() returns (p: Option<Pulled>)
      requires Valid()
      modifies this
      ensures Valid()
      ensures old(pos) < |items| ==> p == Some(items[old(pos)]) && pos == old(pos) + 1
      ensures old(pos) == |items| ==> p.None? && pos == old(pos)
    {
      if pos == |items| {
        return None;
      }
      p := Some(items[pos]);
      pos := pos + 1;
    }

    /** `load`: the limit is checked after each pull, so a load that
        reaches the limit consumes one more record and drops it. */
    method Load(sizeLimit: nat) returns (r: Result<seq<Record>, Error>)
      requires Valid()
      modifies this
      ensures Valid()
      ensures (r, pos) == Loaded(items, old(pos), sizeLimit)
    {
      var loaded: seq<Record> := [];
      var currSize := 0;
      assert Loaded(items, pos, sizeLimit).0.Ok? ==>
             loaded + Loaded(items, pos, sizeLimit).0.value == Loaded(items, pos, sizeLimit).0.value;
      while true
        invariant Valid() && old(pos) <= pos
        invariant currSize == |loaded| <= sizeLimit
        invariant pos == old(pos) + currSize
        invariant var rest := Loaded(items, pos, sizeLimit - currSize);
                  Loaded(items, old(pos), sizeLimit) ==
                  (if rest.0.Ok? then Result.Ok(loaded + rest.0.value) else rest.0, rest.1)
        decreases |items| - pos
      {
        ghost var before := pos;
        var next := Next();
        if next.None? {
          assert Loaded(items, pos, sizeLimit - currSize) == (Result.Ok([]), pos);
          assert loaded + [] == loaded;
          break;
        }
        if currSize == sizeLimit {
          assert Loaded(items, before, 0) == (Result.Ok([]), pos);
          assert loaded + [] == loaded;
          break;
        }
        match next.value {
          case Malformed(d) =>
            return Result.Err(Error("csv", d));
          case Record(m) =>
            ghost var rest := Loaded(items, pos, sizeLimit - currSize - 1);
            assert Loaded(items, before, sizeLimit - currSize) ==
                   (if rest.0.Ok? then Result.Ok([m] + rest.0.value) else rest.0, rest.1);
            assert rest.0.Ok? ==> loaded + ([m] + rest.0.value) == (loaded + [m]) + rest.0.value;
            loaded := loaded + [m];
            currSize := currSize + 1;
        }
      }
      return Result.Ok(loaded);
    }
  }
}
