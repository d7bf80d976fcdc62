/**
 * HashModel: a handle on a broker hash that remembers which attributes were changed, and saves only those. Values are
 * shown encoded; an attribute that is None has no field in the hash.
 */
module HashModels {
  import opened Wrappers

  type Field = string

  type Stored = map<Field, string>

  /** `attrs` has every declared field. */
  datatype Handle = Handle(attrs: map<Field, Option<string>>, dirty: set<Field>, saveAll: bool)

  datatype Op =
    | Assign(f: Field, value: Option<string>)
    | SetField(f: Field, value: Option<string>, setAttribute: bool)
    | Save(all: bool)
    | Delete

  datatype State = State(handle: Handle, hash: Stored)

  /** HDEL of the fields of `fields` whose attribute is None, HSET of the others. */
  function Written(hash: Stored, attrs: map<Field, Option<string>>, fields: set<Field>): Stored {
    map f | f in hash.Keys + fields && (if f in attrs && f in fields then attrs[f].Some? else f in hash) ::
      if f in attrs && f in fields then attrs[f].value else hash[f]
  }

  function WithField(hash: Stored, f: Field, value: Option<string>): Stored {
    if value.Some? then hash[f := value.value] else hash - {f}
  }

  /**
   * Assigning an attribute marks its name dirty before anything else, so also one that is not declared, whose
   * assignment then raises AttributeError. Names with a leading underscore are never marked.
   */
  function Assigned(h: Handle, f: Field, value: Option<string>): Handle {
    var marked := h.(dirty := if IsPrivate(f) then h.dirty else h.dirty + {f});
    if f in h.attrs then marked.(attrs := h.attrs[f := value]) else marked
  }

  predicate IsPrivate(f: Field) {
    f != "" && f[0] == '_'
  }

  /** The declared fields that are saved are public. */
  ghost predicate Declared(h: Handle) {
    forall f | f in h.attrs :: !IsPrivate(f)
  }

  /** The hash that a save leaves. */
  function SavedHash(h: Handle, hash: Stored, all: bool): Stored {
    Written(hash, h.attrs, if all || h.saveAll then h.attrs.Keys else h.dirty)
  }

  /** One operation; for an undeclared field, set_field raises AttributeError before it changes anything. */
  function Applied(s: State, op: Op): State {
    match op
    case Assign(f, v) => s.(handle := Assigned(s.handle, f, v))
    case SetField(f, v, setAttribute) =>
      if f !in s.handle.attrs then s else
        State(if setAttribute then Assigned(s.handle, f, v) else s.handle, WithField(s.hash, f, v))
    case Save(all) => State(s.handle.(dirty := {}, saveAll := false), SavedHash(s.handle, s.hash, all))
    case Delete => State(s.handle.(saveAll := true), map[])
  }

  function Run(s: State, ops: seq<Op>): State
    decreases |ops|
  {
    if ops == [] then s else Run(Applied(s, ops[0]), ops[1..])
  }

  /** A handle as its constructor leaves it. */
  function New(attrs: map<Field, Option<string>>): Handle {
    Handle(attrs, {}, true)
  }

  /** HashModel.get: a field that the hash lacks gets its default, without becoming dirty. */
  function Loaded(hash: Stored, defaults: map<Field, Option<string>>): Handle {
    Handle(map f | f in defaults :: if f in hash then Some(hash[f]) else defaults[f], {}, false)
  }

  /** What a partial save leaves out is stored as it is. */
  ghost predicate InSync(s: State) {
    s.handle.saveAll
    || forall f | f in s.handle.attrs && f !in s.handle.dirty :: Lookup(s.hash, f) == s.handle.attrs[f]
  }

  lemma WrittenAt(hash: Stored, attrs: map<Field, Option<string>>, fields: set<Field>, f: Field)
    ensures Lookup(Written(hash, attrs, fields), f) == if f in attrs && f in fields then attrs[f] else Lookup(hash, f)
  {
  }

  lemma SameLookups(a: Stored, b: Stored)
    requires forall f :: Lookup(a, f) == Lookup(b, f)
    ensures a == b
  {
    forall f ensures f in a <==> f in b {
      assert Lookup(a, f) == Lookup(b, f);
    }
    forall f | f in a ensures a[f] == b[f] {
      assert Lookup(a, f) == Lookup(b, f);
    }
  }

  /** A save leaves the hash that a save of everything would leave exactly when the handle is in sync. */
  lemma PartialIsFullIffInSync(s: State)
    ensures SavedHash(s.handle, s.hash, false) == SavedHash(s.handle, s.hash, true) <==> InSync(s)
  {
    var h := s.handle;
    var part, full := SavedHash(h, s.hash, false), SavedHash(h, s.hash, true);
    if InSync(s) {
      forall f ensures Lookup(part, f) == Lookup(full, f) {
        WrittenAt(s.hash, h.attrs, h.attrs.Keys, f);
        WrittenAt(s.hash, h.attrs, h.dirty, f);
      }
      SameLookups(part, full);
    } else {
      var f :| f in h.attrs && f !in h.dirty && Lookup(s.hash, f) != h.attrs[f];
      WrittenAt(s.hash, h.attrs, h.attrs.Keys, f);
      WrittenAt(s.hash, h.attrs, h.dirty, f);
      assert Lookup(part, f) != Lookup(full, f);
    }
  }

  /**
   * The operations that keep a handle in sync; `set_field` without the attribute does so only where it changes
   * nothing.
   */
  predicate Faithful(s: State, op: Op) {
    op.SetField? && !op.setAttribute && op.f in s.handle.attrs ==>
      s.handle.saveAll || op.f in s.handle.dirty || op.value == s.handle.attrs[op.f]
  }

  lemma OperationKeepsSync(s: State, op: Op)
    requires InSync(s) && Declared(s.handle)
    ensures InSync(Applied(s, op)) <==> Faithful(s, op)
    ensures Declared(Applied(s, op).handle)
  {
    var t := Applied(s, op);
    match op
    case Assign(_, _) =>
    case SetField(f, v, setAttribute) =>
      if f in s.handle.attrs {
        assert Lookup(t.hash, f) == v;
        assert forall g | g != f :: Lookup(t.hash, g) == Lookup(s.hash, g);
      }
    case Save(all) =>
      forall f | f in t.handle.attrs ensures Lookup(t.hash, f) == t.handle.attrs[f] {
        WrittenAt(s.hash, s.handle.attrs, if all || s.handle.saveAll then s.handle.attrs.Keys else s.handle.dirty, f);
      }
    case Delete =>
  }

  ghost predicate AllFaithful(s: State, ops: seq<Op>)
    decreases |ops|
  {
    ops == [] || (Faithful(s, ops[0]) && AllFaithful(Applied(s, ops[0]), ops[1..]))
  }

  /**
   * After any operations on a new handle, whatever was stored before, a save leaves what a save of everything would:
   * every declared field with its attribute's value, and no field for an attribute that is None.
   */
  lemma {:induction false} PartialSaveIsFullSave(s: State, ops: seq<Op>)
    requires InSync(s) && Declared(s.handle) && AllFaithful(s, ops)
    ensures var t := Run(s, ops);
            && InSync(t)
            && SavedHash(t.handle, t.hash, false) == SavedHash(t.handle, t.hash, true)
            && forall f | f in t.handle.attrs :: Lookup(SavedHash(t.handle, t.hash, false), f) == t.handle.attrs[f]
    decreases |ops|
  {
    if ops == [] {
      PartialIsFullIffInSync(s);
      forall f | f in s.handle.attrs ensures Lookup(SavedHash(s.handle, s.hash, true), f) == s.handle.attrs[f] {
        WrittenAt(s.hash, s.handle.attrs, s.handle.attrs.Keys, f);
      }
    } else {
      OperationKeepsSync(s, ops[0]);
      PartialSaveIsFullSave(Applied(s, ops[0]), ops[1..]);
    }
  }

  /** A loaded handle is in sync exactly when every field that the hash lacks has None for a default. */
  lemma LoadedIsInSyncIff(hash: Stored, defaults: map<Field, Option<string>>)
    ensures InSync(State(Loaded(hash, defaults), hash)) <==>
            forall f | f in defaults && f !in hash :: defaults[f] == None
  {
    var h := Loaded(hash, defaults);
    if f :| f in defaults && f !in hash && defaults[f] != None {
      assert f in h.attrs && Lookup(hash, f) != h.attrs[f];
    }
  }

  // ---------------------------------------------------------------------------------------------
  // What a save writes, in terms of the operations before it

  /** Assigning an attribute, directly or by `set_field`. */
  predicate Assigns(op: Op) {
    op.Assign? || (op.SetField? && op.setAttribute)
  }

  predicate AllAssign(ops: seq<Op>) {
    forall i | 0 <= i < |ops| :: Assigns(ops[i])
  }

  /** The operation names f, and gets as far as marking or writing it. */
  predicate Names(op: Op, f: Field) {
    Assigns(op) && op.f == f
  }

  predicate Named(ops: seq<Op>, f: Field) {
    exists i | 0 <= i < |ops| :: Names(ops[i], f)
  }

  /** The value that the last of the operations on f gave it. */
  function LastValue(ops: seq<Op>, f: Field, before: Option<string>): Option<string> {
    if ops == [] then before
    else LastValue(ops[1..], f, if Names(ops[0], f) then ops[0].value else before)
  }

  /** The hash that a handle's `save(all)` leaves of hash `x`. */
  function SavedTo(h: Handle, x: Stored, all: bool): Stored {
    Applied(State(h, x), Save(all)).hash
  }

  /** Between two saves. */
  lemma {:induction false} AssignmentsMark(s: State, ops: seq<Op>)
    requires Declared(s.handle) && AllAssign(ops) && !s.handle.saveAll
    ensures var h := Run(s, ops).handle;
            && !h.saveAll && h.attrs.Keys == s.handle.attrs.Keys
            && forall f | f in s.handle.attrs ::
                 && (f in h.dirty <==> f in s.handle.dirty || Named(ops, f))
                 && h.attrs[f] == LastValue(ops, f, s.handle.attrs[f])
    decreases |ops|
  {
    if ops != [] {
      var t := Applied(s, ops[0]);
      assert Assigns(ops[0]);
      assert AllAssign(ops[1..]) by {
        assert forall i | 0 <= i < |ops[1..]| :: ops[1..][i] == ops[i + 1];
      }
      AssignmentsMark(t, ops[1..]);
      forall f | f in s.handle.attrs ensures Named(ops, f) <==> Names(ops[0], f) || Named(ops[1..], f) {
        NamedFirst(ops, f);
      }
    }
  }

  lemma NamedFirst(ops: seq<Op>, f: Field)
    requires ops != []
    ensures Named(ops, f) <==> Names(ops[0], f) || Named(ops[1..], f)
  {
    if Named(ops[1..], f) {
      var i :| 0 <= i < |ops[1..]| && Names(ops[1..][i], f);
      assert Names(ops[i + 1], f);
    }
    if Named(ops, f) && !Names(ops[0], f) {
      var i :| 0 <= i < |ops| && Names(ops[i], f);
      assert ops[1..][i - 1] == ops[i];
    }
  }

  /** What a save writes to any hash `x`: the declared fields that were named, with their last values, and no other. */
  ghost predicate WritesJustNamed(start: Handle, ops: seq<Op>, h: Handle, x: Stored) {
    forall f :: Lookup(SavedTo(h, x, false), f) ==
      if f in start.attrs && Named(ops, f) then LastValue(ops, f, start.attrs[f]) else Lookup(x, f)
  }

  /**
   * After a save, whatever was done before it, the next one is partial: on any hash, it writes just the declared fields
   * that were assigned in between, so that it leaves alone what others wrote to the rest.
   */
  lemma SaveAfterSave(s: State, all: bool, ops: seq<Op>, x: Stored)
    requires Declared(s.handle) && AllAssign(ops)
    ensures var saved := Applied(s, Save(all));
            saved.handle.attrs == s.handle.attrs && WritesJustNamed(s.handle, ops, Run(saved, ops).handle, x)
  {
    var saved := Applied(s, Save(all));
    AssignmentsMark(saved, ops);
    var h := Run(saved, ops).handle;
    forall f { WrittenAt(x, h.attrs, h.dirty, f); }
  }

  /** So is the first save of a handle that was loaded. */
  lemma SaveAfterLoad(hash: Stored, defaults: map<Field, Option<string>>, ops: seq<Op>, x: Stored)
    requires Declared(Loaded(hash, defaults)) && AllAssign(ops)
    ensures var loaded := Loaded(hash, defaults);
            && (forall f | f in defaults :: f in loaded.attrs
                  && loaded.attrs[f] == if f in hash then Some(hash[f]) else defaults[f])
            && loaded.attrs.Keys == defaults.Keys
            && WritesJustNamed(loaded, ops, Run(State(loaded, hash), ops).handle, x)
  {
    var loaded := Loaded(hash, defaults);
    AssignmentsMark(State(loaded, hash), ops);
    var h := Run(State(loaded, hash), ops).handle;
    forall f { WrittenAt(x, h.attrs, h.dirty, f); }
  }

  /** What a full save writes to any hash: every declared field, with the value last given. */
  ghost predicate WritesAll(start: Handle, ops: seq<Op>, h: Handle, x: Stored, all: bool) {
    forall f :: Lookup(SavedTo(h, x, all), f) ==
      if f in start.attrs then LastValue(ops, f, start.attrs[f]) else Lookup(x, f)
  }

  lemma {:induction false} AssignmentsKeepValues(s: State, ops: seq<Op>)
    requires AllAssign(ops)
    ensures var h := Run(s, ops).handle;
            && h.saveAll == s.handle.saveAll && h.attrs.Keys == s.handle.attrs.Keys
            && forall f | f in s.handle.attrs :: h.attrs[f] == LastValue(ops, f, s.handle.attrs[f])
    decreases |ops|
  {
    if ops != [] {
      assert Assigns(ops[0]);
      assert AllAssign(ops[1..]) by {
        assert forall i | 0 <= i < |ops[1..]| :: ops[1..][i] == ops[i + 1];
      }
      AssignmentsKeepValues(Applied(s, ops[0]), ops[1..]);
    }
  }

  /** The first save of a new handle is full, and so is the first one after a deletion, which leaves no field. */
  lemma FirstSaveIsFull(attrs: map<Field, Option<string>>, s: State, hash: Stored, ops: seq<Op>, x: Stored)
    requires AllAssign(ops)
    ensures WritesAll(New(attrs), ops, Run(State(New(attrs), hash), ops).handle, x, false) && New(attrs).attrs == attrs
    ensures Applied(s, Delete).hash == map[] && Applied(s, Delete).handle.attrs == s.handle.attrs
    ensures WritesAll(s.handle, ops, Run(Applied(s, Delete), ops).handle, x, false)
    ensures WritesAll(s.handle, ops, Run(s, ops).handle, x, true)
  {
    AssignmentsKeepValues(State(New(attrs), hash), ops);
    AssignmentsKeepValues(Applied(s, Delete), ops);
    AssignmentsKeepValues(s, ops);
    var g, h, k := Run(State(New(attrs), hash), ops).handle, Run(Applied(s, Delete), ops).handle, Run(s, ops).handle;
    forall f { WrittenAt(x, g.attrs, g.attrs.Keys, f); }
    forall f { WrittenAt(x, h.attrs, h.attrs.Keys, f); }
    forall f { WrittenAt(x, k.attrs, k.attrs.Keys, f); }
  }

  /** `set_field` writes its field to the hash at once, and no other. */
  lemma SetFieldWrites(s: State, f: Field, value: Option<string>, setAttribute: bool)
    ensures var t := Applied(s, SetField(f, value, setAttribute));
            && (forall g :: Lookup(t.hash, g) == if g == f && f in s.handle.attrs then value else Lookup(s.hash, g))
            && (!setAttribute || f !in s.handle.attrs ==> t.handle == s.handle)
  {
  }

  /**
   * Two handles on one hash that changed different attributes can be saved in either order, and both changes are
   * kept.
   */
  lemma DisjointSavesCommute(hash: Stored, a: Handle, b: Handle)
    requires !a.saveAll && !b.saveAll && a.dirty !! b.dirty
    ensures SavedHash(b, SavedHash(a, hash, false), false) == SavedHash(a, SavedHash(b, hash, false), false)
    ensures forall f :: Lookup(SavedHash(b, SavedHash(a, hash, false), false), f) ==
              if f in a.dirty && f in a.attrs then a.attrs[f]
              else if f in b.dirty && f in b.attrs then b.attrs[f] else Lookup(hash, f)
  {
    var ab := SavedHash(b, SavedHash(a, hash, false), false);
    var ba := SavedHash(a, SavedHash(b, hash, false), false);
    forall f ensures Lookup(ab, f) == Lookup(ba, f)
        && Lookup(ab, f) == if f in a.dirty && f in a.attrs then a.attrs[f]
              else if f in b.dirty && f in b.attrs then b.attrs[f] else Lookup(hash, f) {
      WrittenAt(hash, a.attrs, a.dirty, f);
      WrittenAt(hash, b.attrs, b.dirty, f);
      WrittenAt(SavedHash(a, hash, false), b.attrs, b.dirty, f);
      WrittenAt(SavedHash(b, hash, false), a.attrs, a.dirty, f);
    }
    SameLookups(ab, ba);
  }

  /** The key of the handle's hash in the broker; a missing key is an empty hash. */
  class HashKey {
    var fields: Stored

    constructor ()
      ensures fields == map[]
    {
      fields := map[];
    }
  }

  class HashModel {
    var attrs: map<Field, Option<string>>
    var dirtyFields: set<Field>
    var saveAll: bool

    constructor (attrs: map<Field, Option<string>>)
      ensures Value() == New(attrs)
    {
      this.attrs, dirtyFields, saveAll := attrs, {}, true;
    }

    constructor Deserialize(key: HashKey, defaults: map<Field, Option<string>>)
      ensures Value() == Loaded(key.fields, defaults)
    {
      attrs := map f | f in defaults :: if f in key.fields then Some(key.fields[f]) else defaults[f];
      dirtyFields, saveAll := {}, false;
    }

    function Value(): Handle
      reads this
    {
      Handle(attrs, dirtyFields, saveAll)
    }

    method SetAttr(f: Field, value: Option<string>) returns (ok: bool)
      modifies this
      ensures ok <==> f in old(attrs)
      ensures Value() == Assigned(old(Value()), f, value)
    {
      if !IsPrivate(f) {
        dirtyFields := dirtyFields + {f};
      }
      ok := f in attrs;
      if ok {
        attrs := attrs[f := value];
      }
    }

    method SetFieldOf(key: HashKey, f: Field, value: Option<string>, setAttribute: bool) returns (ok: bool)
      modifies this, key
      ensures ok <==> f in old(attrs)
      ensures State(Value(), key.fields)
              == Applied(State(old(Value()), old(key.fields)), SetField(f, value, setAttribute))
    {
      ok := f in attrs;
      if !ok {
        return;
      }
      if setAttribute {
        var _ := SetAttr(f, value);
      }
      if value.None? {
        key.fields := key.fields - {f};
      } else {
        key.fields := key.fields[f := value.value];
      }
    }

    method SaveTo(key: HashKey, all: bool)
      modifies this, key
      ensures State(Value(), key.fields) == Applied(State(old(Value()), old(key.fields)), Save(all))
    {
      var chosen := if all || saveAll then attrs.Keys else dirtyFields;
      var noneValues := set f | f in chosen && f in attrs && attrs[f].None?;
      var mapping := map f | f in chosen && f in attrs && attrs[f].Some? :: attrs[f].value;
      ghost var before := key.fields;
      key.fields := key.fields - noneValues;
      key.fields := key.fields + mapping;
      SplitWrite(before, attrs, chosen);
      dirtyFields := {};
      saveAll := false;
    }

    method DeleteFrom(key: HashKey)
      modifies `saveAll, key
      ensures State(Value(), key.fields) == Applied(State(old(Value()), old(key.fields)), Delete)
    {
      key.fields := map[];
      saveAll := true;
    }
  }

  lemma SplitWrite(hash: Stored, attrs: map<Field, Option<string>>, fields: set<Field>)
    ensures hash - (set f | f in fields && f in attrs && attrs[f].None?)
                 + (map f | f in fields && f in attrs && attrs[f].Some? :: attrs[f].value)
            == Written(hash, attrs, fields)
  {
  }
}
