/** The variable table `g_vars`: a fixed array of MaxVars slots, each with a
    name of at most NameLen-1 characters, a value and an in-use flag. */
module Variables {
  import opened CalcTypes

  datatype Slot = Slot(name: string, value: real, inUse: bool)

  /** A slot that currently binds `name`. */
  predicate Binds(sl: Slot, name: string) { sl.inUse && sl.name == name }

  /** The name `var_set` stores: at most NameLen-1 characters of the given one. */
  function Stored(name: string): (r: string)
    ensures |r| < NameLen && |r| <= |name| && r == name[..|r|]
    ensures |name| < NameLen ==> r == name
    ensures |name| >= NameLen ==> r == name[..NameLen - 1]
  {
    if |name| < NameLen then name else name[..NameLen - 1]
  }

  function IndexFrom(s: seq<Slot>, name: string, i: nat): (r: int)
    requires i <= |s|
    ensures r == -1 || i <= r < |s|
    ensures r >= 0 ==> Binds(s[r], name) && forall k | i <= k < r :: !Binds(s[k], name)
    ensures r == -1 ==> forall k | i <= k < |s| :: !Binds(s[k], name)
    decreases |s| - i
  {
    if i == |s| then -1
    else if Binds(s[i], name) then i
    else IndexFrom(s, name, i + 1)
  }

  /** `var_find_index`: the first slot binding `name`, or -1. */
  function IndexOf(s: seq<Slot>, name: string): (r: int)
    ensures -1 <= r < |s|
    ensures r >= 0 ==> Binds(s[r], name) && forall k | 0 <= k < r :: !Binds(s[k], name)
    ensures r == -1 <==> forall k | 0 <= k < |s| :: !Binds(s[k], name)
  {
    IndexFrom(s, name, 0)
  }

  function FreeFrom(s: seq<Slot>, i: nat): (r: int)
    requires i <= |s|
    ensures r == -1 || i <= r < |s|
    ensures r >= 0 ==> !s[r].inUse && forall k | i <= k < r :: s[k].inUse
    ensures r == -1 ==> forall k | i <= k < |s| :: s[k].inUse
    decreases |s| - i
  {
    if i == |s| then -1
    else if !s[i].inUse then i
    else FreeFrom(s, i + 1)
  }

  /** The first slot not in use, or -1 when the table is full. */
  function FirstFree(s: seq<Slot>): (r: int)
    ensures -1 <= r < |s|
    ensures r >= 0 ==> !s[r].inUse && forall k | 0 <= k < r :: s[k].inUse
    ensures r == -1 <==> forall k | 0 <= k < |s| :: s[k].inUse
  {
    FreeFrom(s, 0)
  }

  /** `var_get`: the value of the first slot binding `name`. */
  function Lookup(s: seq<Slot>, name: string): Option<real> {
    var i := IndexOf(s, name);
    if i >= 0 then Some(s[i].value) else None
  }

  /** `var_set`: overwrite the value of a bound name, otherwise bind the
      (truncated) name in the first free slot; false when the table is full. */
  function SetSpec(s: seq<Slot>, name: string, v: real): (seq<Slot>, bool) {
    var i := IndexOf(s, name);
    if i >= 0 then (s[i := s[i].(value := v)], true)
    else
      var j := FirstFree(s);
      if j >= 0 then (s[j := Slot(Stored(name), v, true)], true)
      else (s, false)
  }

  /** `var_del`: free the slot binding `name` and clear its name; false when
      the name is unbound. */
  function DelSpec(s: seq<Slot>, name: string): (seq<Slot>, bool) {
    var i := IndexOf(s, name);
    if i >= 0 then (s[i := Slot("", s[i].value, false)], true) else (s, false)
  }

  /** No two slots in use bind the same name. */
  predicate Unique(s: seq<Slot>) {
    forall j, k | 0 <= j < k < |s| :: !(s[j].inUse && s[k].inUse && s[j].name == s[k].name)
  }

  /** Every stored name fits the NameLen buffer with its terminator. */
  predicate ShortNames(s: seq<Slot>) {
    forall k | 0 <= k < |s| :: |s[k].name| < NameLen
  }

  // ---------------------------------------------------------------------
  // Properties of the table operations

  /** Two tables that bind `name` in the same slots with the same values
      answer a lookup of `name` alike. */
  lemma LookupAgrees(s: seq<Slot>, t: seq<Slot>, name: string)
    requires |s| == |t|
    requires forall k | 0 <= k < |s| :: Binds(s[k], name) <==> Binds(t[k], name)
    requires forall k | 0 <= k < |s| && Binds(s[k], name) :: s[k].value == t[k].value
    ensures Lookup(s, name) == Lookup(t, name)
  {
    var i, j := IndexOf(s, name), IndexOf(t, name);
    if i >= 0 && j >= 0 {
      assert !(i < j) && !(j < i);
    }
  }

  /** A successful set makes the name retrievable with the new value; the
      stored name is the given one when it is shorter than NameLen. */
  lemma SetThenLookup(s: seq<Slot>, name: string, v: real)
    requires |name| < NameLen
    ensures SetSpec(s, name, v).1 ==> Lookup(SetSpec(s, name, v).0, name) == Some(v)
  {
    var (t, ok) := SetSpec(s, name, v);
    var i := IndexOf(s, name);
    if i < 0 && ok {
      var j := FirstFree(s);
      assert Binds(t[j], name);
      assert forall k | 0 <= k < j :: t[k] == s[k] && !Binds(t[k], name);
      var r := IndexOf(t, name);
      assert r != -1 && !(r < j) && !(j < r);
    } else if ok {
      assert Binds(t[i], name);
      assert forall k | 0 <= k < i :: t[k] == s[k] && !Binds(t[k], name);
      var r := IndexOf(t, name);
      assert r != -1 && !(r < i) && !(i < r);
    }
  }

  /** A set fails exactly when the name is unbound and every slot is in use;
      a failed set leaves the table as it was. */
  lemma SetFailsOnlyWhenFull(s: seq<Slot>, name: string, v: real)
    ensures !SetSpec(s, name, v).1 <==>
      Lookup(s, name) == None && forall k | 0 <= k < |s| :: s[k].inUse
    ensures !SetSpec(s, name, v).1 ==> SetSpec(s, name, v).0 == s
  {
  }

  /** A set changes no other name's binding. */
  lemma SetKeepsOthers(s: seq<Slot>, name: string, v: real, other: string)
    requires other != name && other != Stored(name)
    ensures Lookup(SetSpec(s, name, v).0, other) == Lookup(s, other)
  {
    var t := SetSpec(s, name, v).0;
    forall k | 0 <= k < |s|
      ensures Binds(s[k], other) <==> Binds(t[k], other)
      ensures Binds(s[k], other) ==> s[k].value == t[k].value
    {
      if t[k] != s[k] {
        assert s[k].name == name || !s[k].inUse;
      }
    }
    LookupAgrees(s, t, other);
  }

  /** A set keeps names unique, provided the name fits (every caller in the
      calculator passes names shorter than NameLen). */
  lemma SetKeepsUnique(s: seq<Slot>, name: string, v: real)
    requires Unique(s) && |name| < NameLen
    ensures Unique(SetSpec(s, name, v).0)
  {
    var t := SetSpec(s, name, v).0;
    var i := IndexOf(s, name);
    if i < 0 {
      var j := FirstFree(s);
      if j >= 0 {
        forall a, b | 0 <= a < b < |t|
          ensures !(t[a].inUse && t[b].inUse && t[a].name == t[b].name)
        {
          if a == j || b == j {
            var o := if a == j then b else a;
            assert !Binds(s[o], name);
          }
        }
      }
    }
  }

  /** After a successful set in a table with unique names, exactly one slot
      in use binds the name. */
  lemma SetOccupiesOneSlot(s: seq<Slot>, name: string, v: real)
    requires Unique(s) && |name| < NameLen && SetSpec(s, name, v).1
    ensures var t := SetSpec(s, name, v).0;
      var i := IndexOf(t, name);
      0 <= i && forall k | 0 <= k < |t| :: Binds(t[k], name) <==> k == i
  {
    SetThenLookup(s, name, v);
    SetKeepsUnique(s, name, v);
    var t := SetSpec(s, name, v).0;
    var i := IndexOf(t, name);
    forall k | 0 <= k < |t| && k != i
      ensures !Binds(t[k], name)
    {
      if k > i {
        assert !(t[i].inUse && t[k].inUse && t[i].name == t[k].name);
      }
    }
  }

  /** A name longer than NameLen-1 is stored truncated, so a table of short
      names never binds it and a set of it stays unretrievable. */
  lemma SetTruncatesLongNames(s: seq<Slot>, name: string, v: real)
    requires ShortNames(s) && |name| >= NameLen
    ensures Lookup(s, name) == None
    ensures ShortNames(SetSpec(s, name, v).0)
    ensures Lookup(SetSpec(s, name, v).0, name) == None
  {
    var t := SetSpec(s, name, v).0;
    assert forall k | 0 <= k < |s| :: !Binds(s[k], name);
    assert forall k | 0 <= k < |t| :: |t[k].name| < NameLen;
    assert forall k | 0 <= k < |t| :: !Binds(t[k], name);
  }

  /** Deleting frees the name: in a table with unique names it is unbound
      afterwards, the result says whether it was bound, and every other name
      keeps its binding. */
  lemma DelUnbinds(s: seq<Slot>, name: string, other: string)
    requires Unique(s) && other != name
    ensures DelSpec(s, name).1 <==> Lookup(s, name).Some?
    ensures Lookup(DelSpec(s, name).0, name) == None
    ensures Lookup(DelSpec(s, name).0, other) == Lookup(s, other)
    ensures Unique(DelSpec(s, name).0)
    ensures forall k | 0 <= k < |s| && k != IndexOf(s, name) :: DelSpec(s, name).0[k] == s[k]
  {
    var t := DelSpec(s, name).0;
    var i := IndexOf(s, name);
    if i >= 0 {
      forall k | 0 <= k < |t|
        ensures !Binds(t[k], name)
      {
        if k != i {
          assert !(s[k].inUse && s[i].inUse && s[k].name == s[i].name) by {
            if k < i {} else {}
          }
        }
      }
    }
    LookupAgrees(s, t, other);
  }

  /** `eval_with_var` binds a name for one evaluation, then puts back the old
      value when the name was bound and deletes it otherwise. */
  function WithBinding(s: seq<Slot>, name: string, x: real): seq<Slot> {
    SetSpec(s, name, x).0
  }

  function Restore(s: seq<Slot>, during: seq<Slot>, name: string): seq<Slot> {
    match Lookup(s, name)
    case Some(prev) => SetSpec(during, name, prev).0
    case None => DelSpec(during, name).0
  }

  /** The temporary binding is visible during the evaluation unless the table
      is full, and afterwards no name's binding has changed; if the name was
      bound before, the slots are exactly as they were. */
  lemma ScopedBindingRestores(s: seq<Slot>, name: string, x: real)
    requires Unique(s) && |name| < NameLen
    ensures var during := WithBinding(s, name, x);
      (Lookup(during, name) == Some(x) || (Lookup(s, name) == None && forall k | 0 <= k < |s| :: s[k].inUse)) &&
      (forall n :: Lookup(Restore(s, during, name), n) == Lookup(s, n)) &&
      (Lookup(s, name).Some? ==> Restore(s, during, name) == s)
  {
    var during := WithBinding(s, name, x);
    var after := Restore(s, during, name);
    SetThenLookup(s, name, x);
    SetFailsOnlyWhenFull(s, name, x);
    SetKeepsUnique(s, name, x);
    var i := IndexOf(s, name);
    if i >= 0 {
      assert during == s[i := s[i].(value := x)];
      assert IndexOf(during, name) == i by {
        assert forall k | 0 <= k < |s| :: Binds(during[k], name) <==> Binds(s[k], name);
      }
      assert after == during[i := during[i].(value := s[i].value)];
      assert after == s;
    } else {
      forall n
        ensures Lookup(after, n) == Lookup(s, n)
      {
        if n == name {
          DelUnbinds(during, name, name + "?");
        } else {
          DelUnbinds(during, name, n);
          SetKeepsOthers(s, name, x, n);
        }
      }
    }
  }

  // ---------------------------------------------------------------------
  // The table as a mutable object

  class VarTable {
    const slots: array<Slot>

    /** The zero-initialised global table: every slot free. */
    constructor ()
      ensures slots.Length == MaxVars && fresh(slots)
      ensures forall k | 0 <= k < slots.Length :: slots[k] == Slot("", 0.0, false)
    {
      slots := new Slot[MaxVars](_ => Slot("", 0.0, false));
    }

    /** `var_find_index`. */
    method FindIndex(name: string) returns (i: int)
      ensures i == IndexOf(slots[..], name)
    {
      var k := 0;
      while k < slots.Length
        invariant 0 <= k <= slots.Length
        invariant IndexFrom(slots[..], name, k) == IndexOf(slots[..], name)
      {
        if slots[k].inUse && slots[k].name == name {
          return k;
        }
        k := k + 1;
      }
      return -1;
    }

    /** `var_set`. */
    method Set(name: string, v: real) returns (ok: bool)
      modifies slots
      ensures (slots[..], ok) == SetSpec(old(slots[..]), name, v)
    {
      var i := FindIndex(name);
      if i >= 0 {
        slots[i] := slots[i].(value := v);
        return true;
      }
      var k := 0;
      while k < slots.Length
        invariant 0 <= k <= slots.Length
        invariant FreeFrom(slots[..], k) == FirstFree(slots[..])
      {
        if !slots[k].inUse {
          slots[k] := Slot(Stored(name), v, true);
          return true;
        }
        k := k + 1;
      }
      return false;
    }

    /** `var_get`: `found` is its return value, `v` what it writes to `*out`. */
    method Get(name: string) returns (found: bool, v: real)
      ensures Lookup(slots[..], name) == if found then Some(v) else None
    {
      var i := FindIndex(name);
      if i >= 0 {
        return true, slots[i].value;
      }
      return false, 0.0;
    }

    /** `var_del`. */
    method Del(name: string) returns (ok: bool)
      modifies slots
      ensures (slots[..], ok) == DelSpec(old(slots[..]), name)
    {
      var i := FindIndex(name);
      if i >= 0 {
        slots[i] := Slot("", slots[i].value, false);
        return true;
      }
      return false;
    }

    /** `vars_init_defaults`: bind `pi`, `e` and `ans`. */
    method InitDefaults(lib: LibC)
      modifies slots
      ensures slots[..] == SetSpec(SetSpec(SetSpec(old(slots[..]), "pi", Pi).0, "e", lib.exp(1.0)).0, "ans", 0.0).0
    {
      var ok := Set("pi", Pi);
      ok := Set("e", lib.exp(1.0));
      ok := Set("ans", 0.0);
    }
  }

  /** On the fresh table the defaults are all retrievable. */
  lemma DefaultsFromEmpty(s: seq<Slot>, lib: LibC)
    requires |s| == MaxVars && forall k | 0 <= k < |s| :: !s[k].inUse
    ensures var t := SetSpec(SetSpec(SetSpec(s, "pi", Pi).0, "e", lib.exp(1.0)).0, "ans", 0.0).0;
      Lookup(t, "pi") == Some(Pi) && Lookup(t, "e") == Some(lib.exp(1.0)) && Lookup(t, "ans") == Some(0.0)
  {
    var t1 := SetSpec(s, "pi", Pi).0;
    var t2 := SetSpec(t1, "e", lib.exp(1.0)).0;
    var t3 := SetSpec(t2, "ans", 0.0).0;
    assert IndexOf(s, "pi") == -1 && FirstFree(s) == 0;
    assert !t1[1].inUse;
    assert IndexOf(t1, "e") == -1 && FirstFree(t1) == 1;
    assert !t2[2].inUse;
    assert IndexOf(t2, "ans") == -1 && FirstFree(t2) == 2;
    SetThenLookup(s, "pi", Pi);
    SetThenLookup(t1, "e", lib.exp(1.0));
    SetThenLookup(t2, "ans", 0.0);
    SetKeepsOthers(t1, "e", lib.exp(1.0), "pi");
    SetKeepsOthers(t2, "ans", 0.0, "pi");
    SetKeepsOthers(t2, "ans", 0.0, "e");
  }
}
