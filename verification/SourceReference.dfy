/** The native source-reference codec: a version byte, a two-byte root slot and the native path, and the
    incremental constructor that extends a parsed parent by one component. `windows` says whether the
    owning host separates with a backslash. */
module SourceReference {
  import opened Totals

  type Byte = x: int | 0 <= x < 256

  type Bytes = seq<Byte>

  const SLASH: Byte := 47
  const DOT: Byte := 46
  const NUL: Byte := 0
  const BACKSLASH: Byte := 92
  const COLON: Byte := 58

  const HEADER_BYTES := 3
  const VERSION: Byte := 1
  const MAX_SELECTED_ROOTS := 4096
  const MAX_SOURCE_REFERENCE_BYTES := 65536
  const MAX_NATIVE_SOURCE_PATH_BYTES := MAX_SOURCE_REFERENCE_BYTES - HEADER_BYTES
  const MAX_PATH_DEPTH := 256

  datatype Location = Location(slot: nat, path: Bytes)

  // ---------------------------------------------------------------- paths

  function Split(path: Bytes): (components: seq<Bytes>)
    ensures components != []
  {
    if path == [] then [[]]
    else
      var rest := Split(path[1..]);
      if path[0] == SLASH then [[]] + rest else [[path[0]] + rest[0]] + rest[1..]
  }

  function CountSlashes(path: Bytes): nat {
    if path == [] then 0 else (if path[0] == SLASH then 1 else 0) + CountSlashes(path[1..])
  }

  /** How many components a path has; the root has none. */
  function Depth(path: Bytes): nat { if path == [] then 0 else CountSlashes(path) + 1 }

  predicate ValidName(name: Bytes, windows: bool) {
    && name != [] && name != [DOT] && name != [DOT, DOT] && SLASH !in name && NUL !in name
    && (windows ==> BACKSLASH !in name && COLON !in name)
  }

  predicate WithinBounds(path: Bytes, depth: nat) { |path| <= MAX_NATIVE_SOURCE_PATH_BYTES && depth <= MAX_PATH_DEPTH }

  predicate AllValid(names: seq<Bytes>, windows: bool) { forall i | 0 <= i < |names| :: ValidName(names[i], windows) }

  predicate ValidPath(path: Bytes, windows: bool) {
    path == [] || (WithinBounds(path, |Split(path)|) && AllValid(Split(path), windows))
  }

  // ---------------------------------------------------------------- references

  function Encode(slot: nat, path: Bytes): Option<Bytes>
    requires slot < 65536
  {
    var raw := [VERSION, slot / 256, slot % 256] + path;
    if |raw| <= MAX_SOURCE_REFERENCE_BYTES then Some(raw) else None
  }

  function NewReference(slot: nat, path: Bytes, windows: bool): Option<Bytes>
    requires slot < 65536
  {
    if slot >= MAX_SELECTED_ROOTS || !ValidPath(path, windows) then None else Encode(slot, path)
  }

  function Parse(raw: Bytes, windows: bool): Option<Location> {
    if |raw| < HEADER_BYTES || raw[0] != VERSION then None
    else
      var slot: nat := raw[1] as int * 256 + raw[2] as int;
      var path := raw[HEADER_BYTES..];
      if slot >= MAX_SELECTED_ROOTS || !ValidPath(path, windows) then None else Some(Location(slot, path))
  }

  function Joined(parent: Bytes, name: Bytes): Bytes { if parent == [] then name else parent + [SLASH] + name }

  /** Validates only the new component; the parent's own path is already known to be valid. */
  function NewChild(parent: Location, name: Bytes, windows: bool): Option<Bytes>
    requires parent.slot < 65536
  {
    var depth := if parent.path == [] then 1 else CountSlashes(parent.path) + 2;
    if !ValidName(name, windows) || !WithinBounds(Joined(parent.path, name), depth) then None
    else Encode(parent.slot, Joined(parent.path, name))
  }

  // ---------------------------------------------------------------- round trips

  /** Creation succeeds on exactly the valid slots and paths. */
  lemma NewSucceeds(slot: nat, path: Bytes, windows: bool)
    requires slot < 65536
    ensures NewReference(slot, path, windows).Some? <==> slot < MAX_SELECTED_ROOTS && ValidPath(path, windows)
  {
    if ValidPath(path, windows) { assert |path| <= MAX_NATIVE_SOURCE_PATH_BYTES; }
  }

  /** Parsing gives back the slot and the path that were encoded. */
  lemma ParseInvertsNew(slot: nat, path: Bytes, windows: bool)
    requires slot < 65536
    ensures NewReference(slot, path, windows).Some? ==>
              Parse(NewReference(slot, path, windows).value, windows) == Some(Location(slot, path))
  {
    var raw := [VERSION, slot / 256, slot % 256] + path;
    assert raw[HEADER_BYTES..] == path;
    assert (slot / 256) * 256 + slot % 256 == slot;
  }

  /** Every reference that parses is the one its location encodes to: the encoding is canonical. */
  lemma NewInvertsParse(raw: Bytes, windows: bool)
    requires Parse(raw, windows).Some?
    ensures var location := Parse(raw, windows).value;
            location.slot < MAX_SELECTED_ROOTS && NewReference(location.slot, location.path, windows) == Some(raw)
  {
    var slot: nat := raw[1] as int * 256 + raw[2] as int;
    var path := raw[HEADER_BYTES..];
    assert slot / 256 == raw[1] && slot % 256 == raw[2];
    assert raw == [VERSION, slot / 256, slot % 256] + path;
    if path != [] { assert |path| <= MAX_NATIVE_SOURCE_PATH_BYTES; }
  }

  // ---------------------------------------------------------------- joining components

  lemma {:induction false} SplitCounts(path: Bytes)
    ensures |Split(path)| == CountSlashes(path) + 1
  {
    if path != [] { SplitCounts(path[1..]); }
  }

  lemma {:induction false} SplitSingle(name: Bytes)
    requires SLASH !in name
    ensures Split(name) == [name]
  {
    if name != [] {
      SplitSingle(name[1..]);
      assert [name[0]] + name[1..] == name;
    }
  }

  /** A separator splits the components of what stands before it from those after it. */
  lemma {:induction false} SplitJoin(a: Bytes, b: Bytes)
    ensures Split(a + [SLASH] + b) == Split(a) + Split(b)
  {
    var whole := a + [SLASH] + b;
    if a == [] {
      assert whole[0] == SLASH && whole[1..] == b;
    } else {
      assert whole[0] == a[0] && whole[1..] == a[1..] + [SLASH] + b;
      SplitJoin(a[1..], b);
      PrependAppend(a[0], Split(a[1..]), Split(b));
    }
  }

  /** One more leading byte and more trailing components do not interfere. */
  lemma PrependAppend(x: Byte, front: seq<Bytes>, back: seq<Bytes>)
    requires front != []
    ensures [[]] + (front + back) == ([[]] + front) + back
    ensures [[x] + (front + back)[0]] + (front + back)[1..] == ([[x] + front[0]] + front[1..]) + back
  {
    assert (front + back)[1..] == front[1..] + back;
  }

  lemma JoinedComponents(parent: Bytes, name: Bytes)
    ensures Split(Joined(parent, name)) == if parent == [] then Split(name) else Split(parent) + Split(name)
    ensures parent != [] ==> |Split(Joined(parent, name))| == CountSlashes(parent) + 1 + |Split(name)|
  {
    if parent != [] {
      SplitJoin(parent, name);
      SplitCounts(parent);
    }
  }

  /** The incremental constructor agrees with full validation of the joined path, reference included,
      for every parsed parent and every name that is a single component. */
  lemma ChildAgrees(parent: Location, name: Bytes, windows: bool)
    requires parent.slot < MAX_SELECTED_ROOTS && ValidPath(parent.path, windows)
    requires SLASH !in name && (name != [] || parent.path != [])
    ensures NewChild(parent, name, windows) == NewReference(parent.slot, Joined(parent.path, name), windows)
  {
    var joined := Joined(parent.path, name);
    JoinedComponents(parent.path, name);
    SplitSingle(name);
    assert joined != [];
    if parent.path == [] {
      assert Split(joined) == [name];
      assert AllValid([name], windows) <==> ValidName(name, windows) by { assert [name][0] == name; }
    } else {
      assert Split(joined) == Split(parent.path) + [name];
      LastValid(Split(parent.path), name, windows);
    }
  }

  lemma LastValid(names: seq<Bytes>, name: Bytes, windows: bool)
    requires AllValid(names, windows)
    ensures AllValid(names + [name], windows) <==> ValidName(name, windows)
  {
    assert (names + [name])[|names|] == name;
  }

  /** Exactly when the two constructors agree: they part on the empty name at the root, which names the
      root itself, and on a name that is itself a valid several-component path and still fits. */
  lemma ChildAgreesExactly(parent: Location, name: Bytes, windows: bool)
    requires parent.slot < MAX_SELECTED_ROOTS && ValidPath(parent.path, windows)
    ensures NewChild(parent, name, windows) == NewReference(parent.slot, Joined(parent.path, name), windows) <==>
            !(name == [] && parent.path == []) &&
            !(SLASH in name && AllValid(Split(name), windows)
              && WithinBounds(Joined(parent.path, name), Depth(parent.path) + |Split(name)|))
  {
    if SLASH !in name {
      if name == [] && parent.path == [] {
        assert ValidPath([], windows);
        NewSucceeds(parent.slot, [], windows);
      } else {
        ChildAgrees(parent, name, windows);
      }
    } else {
      SeparatorIsNoChild(parent, name, windows);
      SeveralComponents(parent, name, windows);
    }
  }

  /** Both exceptions are real: at the root the empty name is the root itself to full validation and no
      child, and so is a name of two components. */
  lemma ChildDisagrees(slot: nat, windows: bool)
    requires slot < MAX_SELECTED_ROOTS
    ensures var root, two := Location(slot, []), [97, SLASH, 98];
            && NewChild(root, [], windows).None? && NewReference(slot, Joined([], []), windows).Some?
            && NewChild(root, two, windows).None? && NewReference(slot, Joined([], two), windows).Some?
  {
    var root, two := Location(slot, []), [97, SLASH, 98];
    NewSucceeds(slot, [], windows);
    SplitSingle([97]);
    SplitSingle([98]);
    SplitJoin([97], [98]);
    assert [97] + [SLASH] + [98] == two;
    assert Split(two) == [[97], [98]];
    SeveralComponents(root, two, windows);
  }

  /** A name of several components is a valid path below the parent exactly when its own components are
      valid and the whole still fits. */
  lemma SeveralComponents(parent: Location, name: Bytes, windows: bool)
    requires parent.slot < MAX_SELECTED_ROOTS && ValidPath(parent.path, windows) && SLASH in name
    ensures NewReference(parent.slot, Joined(parent.path, name), windows).Some? <==>
            AllValid(Split(name), windows)
            && WithinBounds(Joined(parent.path, name), Depth(parent.path) + |Split(name)|)
  {
    var joined := Joined(parent.path, name);
    JoinedValid(parent.path, name, windows);
    NewSucceeds(parent.slot, joined, windows);
  }

  lemma SeparatorIsNoChild(parent: Location, name: Bytes, windows: bool)
    requires parent.slot < 65536 && SLASH in name
    ensures NewChild(parent, name, windows) == None
  {
    assert !ValidName(name, windows);
  }

  lemma JoinedValid(parent: Bytes, name: Bytes, windows: bool)
    requires ValidPath(parent, windows) && name != []
    ensures ValidPath(Joined(parent, name), windows) <==>
            AllValid(Split(name), windows) && WithinBounds(Joined(parent, name), Depth(parent) + |Split(name)|)
  {
    if parent != [] { JoinedBelow(parent, name, windows); }
  }

  lemma JoinedBelow(parent: Bytes, name: Bytes, windows: bool)
    requires parent != [] && ValidPath(parent, windows)
    ensures ValidPath(Joined(parent, name), windows) <==>
            AllValid(Split(name), windows) && WithinBounds(Joined(parent, name), Depth(parent) + |Split(name)|)
  {
    var joined, front, back := Joined(parent, name), Split(parent), Split(name);
    JoinedComponents(parent, name);
    calc {
      ValidPath(joined, windows);
    <==> { assert joined != []; }
      WithinBounds(joined, |Split(joined)|) && AllValid(Split(joined), windows);
    <==> { assert Split(joined) == front + back && |Split(joined)| == Depth(parent) + |back|; }
      WithinBounds(joined, Depth(parent) + |back|) && AllValid(front + back, windows);
    <==> { ConcatValid(front, back, windows); }
      WithinBounds(joined, Depth(parent) + |back|) && AllValid(back, windows);
    }
  }

  lemma ConcatValid(a: seq<Bytes>, b: seq<Bytes>, windows: bool)
    ensures AllValid(a + b, windows) <==> AllValid(a, windows) && AllValid(b, windows)
  {
    if AllValid(a + b, windows) {
      assert forall i | 0 <= i < |a| :: (a + b)[i] == a[i];
      assert forall i | 0 <= i < |b| :: (a + b)[|a| + i] == b[i];
    }
  }

  /** A child's reference parses to the parent's slot and the joined path. */
  lemma ChildParses(parent: Location, name: Bytes, windows: bool)
    requires parent.slot < MAX_SELECTED_ROOTS && ValidPath(parent.path, windows)
             && NewChild(parent, name, windows).Some?
    ensures Parse(NewChild(parent, name, windows).value, windows)
            == Some(Location(parent.slot, Joined(parent.path, name)))
  {
    ChildAgrees(parent, name, windows);
    ParseInvertsNew(parent.slot, Joined(parent.path, name), windows);
  }
}
