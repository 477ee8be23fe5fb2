/**
 * The storefront's session: a dirty flag (`isPending`) over one wrapped
 * cookie session. Writes raise the flag, committing lowers it, and reads and
 * destroying leave it alone. The wrapped session keeps plain values and
 * flash values; reading a key returns its value, or else its flash value,
 * which the read consumes.
 */
module Session {
  import opened Wrappers

  datatype SessionData = SessionData(values: map<string, string>, flashes: map<string, string>)

  const Empty := SessionData(map[], map[])

  /** `session.has(key)`: a value or a flash value is stored under the key. */
  predicate HasKey(d: SessionData, key: string) {
    key in d.values || key in d.flashes
  }

  /** `session.get(key)`: the value, else the flash value (which is removed), else nothing. */
  function Read(d: SessionData, key: string): (r: (Option<string>, SessionData))
    ensures r.0.Some? <==> HasKey(d, key)
    ensures key in d.values ==> r == (Some(d.values[key]), d)
    ensures key !in d.values && key in d.flashes ==>
              r.0 == Some(d.flashes[key]) && r.1.values == d.values && key !in r.1.flashes
              && forall k :: k != key ==> (k in r.1.flashes <==> k in d.flashes)
    ensures !HasKey(d, key) ==> r.1 == d
  {
    if key in d.values then (Some(d.values[key]), d)
    else if key in d.flashes then (Some(d.flashes[key]), d.(flashes := d.flashes - {key}))
    else (None, d)
  }

  function SetValue(d: SessionData, key: string, value: string): (r: SessionData)
    ensures Read(r, key) == (Some(value), r)
    ensures forall k :: k != key ==> Read(r, k).0 == Read(d, k).0
  {
    d.(values := d.values[key := value])
  }

  function UnsetKey(d: SessionData, key: string): (r: SessionData)
    ensures key !in r.values && r.flashes == d.flashes
    ensures HasKey(r, key) <==> key in d.flashes
    ensures forall k :: k != key ==> Read(r, k).0 == Read(d, k).0
  {
    d.(values := d.values - {key})
  }

  function FlashValue(d: SessionData, key: string, value: string): (r: SessionData)
    ensures HasKey(r, key) && r.values == d.values
    ensures key !in d.values ==> Read(r, key).0 == Some(value)
  {
    d.(flashes := d.flashes[key := value])
  }

  /** A flash value is read once: the second read finds nothing. */
  lemma FlashReadOnce(d: SessionData, key: string, value: string)
    requires key !in d.values
    ensures var (first, after) := Read(FlashValue(d, key, value), key);
            first == Some(value) && Read(after, key).0.None?
  {
  }

  /** What each operation does to the dirty flag. */
  datatype Op = HasOp | GetOp | FlashOp | UnsetOp | SetOp | DestroyOp | CommitOp

  predicate IsWrite(op: Op) {
    op == FlashOp || op == UnsetOp || op == SetOp
  }

  /** The flag after a run of operations. */
  function PendingAfter(pending: bool, ops: seq<Op>): bool {
    if ops == [] then pending
    else
      var p := PendingAfter(pending, ops[..|ops| - 1]);
      var op := ops[|ops| - 1];
      if IsWrite(op) then true else if op == CommitOp then false else p
  }

  /** A fresh session is pending exactly when a write came after the last commit. */
  lemma {:induction false} PendingIffUncommittedWrite(ops: seq<Op>)
    ensures PendingAfter(false, ops) <==>
              exists i :: 0 <= i < |ops| && IsWrite(ops[i]) && forall j :: i < j < |ops| ==> ops[j] != CommitOp
  {
    if ops != [] {
      var init := ops[..|ops| - 1];
      var last := |ops| - 1;
      PendingIffUncommittedWrite(init);
      if IsWrite(ops[last]) {
        assert IsWrite(ops[last]);
      } else if ops[last] == CommitOp {
        forall i | 0 <= i < |ops| && IsWrite(ops[i])
          ensures exists j :: i < j < |ops| && ops[j] == CommitOp
        {
          assert ops[last] == CommitOp;
        }
      } else {
        if PendingAfter(false, init) {
          var i :| 0 <= i < |init| && IsWrite(init[i]) && forall j :: i < j < |init| ==> init[j] != CommitOp;
          assert IsWrite(ops[i]);
          assert forall j :: i < j < |ops| ==> ops[j] != CommitOp by {
            forall j | i < j < |ops| ensures ops[j] != CommitOp {
              if j < last { assert ops[j] == init[j]; }
            }
          }
        }
        forall i | 0 <= i < |ops| && IsWrite(ops[i]) && (forall j :: i < j < |ops| ==> ops[j] != CommitOp)
          ensures PendingAfter(false, init)
        {
          assert i < last;
          assert IsWrite(init[i]);
          assert forall j :: i < j < |init| ==> init[j] != CommitOp by {
            forall j | i < j < |init| ensures init[j] != CommitOp {
              assert init[j] == ops[j];
            }
          }
        }
      }
    }
  }

  class AppSession {
    var isPending: bool
    var data: SessionData

    /**
     * `AppSession.init`: the session read from the request's cookie, or an
     * empty one when the cookie cannot be read; not pending.
     */
    constructor(fromCookie: Option<SessionData>)
      ensures !isPending
      ensures data == (if fromCookie.Some? then fromCookie.value else Empty)
    {
      isPending := false;
      data := if fromCookie.Some? then fromCookie.value else Empty;
    }

    method Has(key: string) returns (r: bool)
      ensures r == HasKey(data, key)
    {
      r := key in data.values || key in data.flashes;
    }

    method Get(key: string) returns (r: Option<string>)
      modifies this
      ensures (r, data) == Read(old(data), key)
      ensures isPending == old(isPending)
    {
      var res := Read(data, key);
      r := res.0;
      data := res.1;
    }

    method Flash(key: string, value: string)
      modifies this
      ensures isPending && data == FlashValue(old(data), key, value)
    {
      isPending := true;
      data := FlashValue(data, key, value);
    }

    method Unset(key: string)
      modifies this
      ensures isPending && data == UnsetKey(old(data), key)
    {
      isPending := true;
      data := UnsetKey(data, key);
    }

    method Set(key: string, value: string)
      modifies this
      ensures isPending && data == SetValue(old(data), key, value)
    {
      isPending := true;
      data := SetValue(data, key, value);
    }

    /** A `set` whose wrapped session throws: the flag was raised before the write failed. */
    method SetRejected(key: string)
      modifies this
      ensures isPending && data == old(data)
    {
      isPending := true;
    }

    /** `destroy`: the storage discards the cookie; the flag and the data stay as they are. */
    method Destroy()
      ensures unchanged(this)
    {
    }

    /** `commit`: the flag is lowered and the current data are what the storage serialises. */
    method Commit() returns (committed: SessionData)
      modifies this
      ensures !isPending && data == old(data) && committed == data
    {
      isPending := false;
      committed := data;
    }
  }
}
