/**
 * The hint table of a Notify request: an array of dict entries (string key,
 * variant value) from which the daemon takes the "urgency", "fgcolor" and
 * "bgcolor" hints into caller-seeded slots.
 *
 * ScanEntry and ScanHints say what the walk computes, element by element;
 * ExtractHint and WalkHints are the nested loops of the daemon, proved to
 * compute exactly that.
 */
module Hints {
  import opened DBusTypes

  /** The three variables a hint can be written into. */
  datatype Target = Urgency | FgColor | BgColor

  function TargetName(t: Target): string {
    match t
    case Urgency => "urgency"
    case FgColor => "fgcolor"
    case BgColor => "bgcolor"
  }

  /** Which target a key string names, if any; the three names are distinct. */
  function HintTarget(name: string): (r: Option<Target>)
    ensures forall t: Target :: r == Some(t) <==> name == TargetName(t)
  {
    if name == "urgency" then Some(Urgency)
    else if name == "fgcolor" then Some(FgColor)
    else if name == "bgcolor" then Some(BgColor)
    else None
  }

  /** The caller's variables: `int urgency`, `const char *fgcolor`, `const char *bgcolor` (None is NULL). */
  datatype Slots = Slots(urgency: Int32, fgcolor: Option<string>, bgcolor: Option<string>)

  /** The values the decoder seeds before the walk: normal urgency, no colours. */
  const Defaults: Slots := Slots(1, None, None)

  /** The content of one slot, whatever its C type. */
  datatype SlotValue = IntValue(i: Int32) | StrValue(s: Option<string>)

  function Get(t: Target, h: Slots): SlotValue {
    match t
    case Urgency => IntValue(h.urgency)
    case FgColor => StrValue(h.fgcolor)
    case BgColor => StrValue(h.bgcolor)
  }

  /**
   * dbus_message_iter_get_basic into the int urgency without a type check, on a
   * little-endian host: a 32-bit value replaces it, a byte replaces its low
   * byte. A value that is not basic is not written by libdbus; a string or
   * other basic value is not modelled and leaves the slot as it was.
   */
  function StoreInt(prior: Int32, v: Option<Arg>): (r: Int32)
    ensures v.Some? && v.value.I32? ==> r == v.value.i
    ensures v.Some? && v.value.U32? ==> r % 0x1_0000_0000 == v.value.u
    ensures v.Some? && v.value.Byte? ==> r % 0x100 == v.value.b && r / 0x100 == prior / 0x100
    ensures v.None? ==> r == prior
    ensures v.Some? && !(v.value.I32? || v.value.U32? || v.value.Byte?) ==> r == prior
  {
    match v
    case Some(I32(i)) => i
    case Some(U32(u)) => AsInt32(u)
    case Some(Byte(b)) =>
      LowByteReplaced(prior, b);
      prior - prior % 0x100 + b
    case _ => prior
  }

  lemma LowByteReplaced(x: int, b: Uint8)
    requires -0x8000_0000 <= x < 0x8000_0000
    ensures var y := x - x % 0x100 + b;
      -0x8000_0000 <= y < 0x8000_0000 && y % 0x100 == b && y / 0x100 == x / 0x100
  {
    var q := x / 0x100;
    assert x == 0x100 * q + x % 0x100;
    assert x - x % 0x100 + b == 0x100 * q + b;
  }

  /** get_basic into a `const char *` colour: a string is stored; anything else is not modelled and leaves it. */
  function StoreStr(prior: Option<string>, v: Option<Arg>): (r: Option<string>)
    ensures v.Some? && v.value.Str? ==> r == Some(v.value.s)
    ensures !(v.Some? && v.value.Str?) ==> r == prior
  {
    match v
    case Some(Str(s)) => Some(s)
    case _ => prior
  }

  /** Writes the value read from a hint's variant into one target and nowhere else. */
  function Store(t: Target, v: Option<Arg>, h: Slots): (r: Slots)
    ensures forall t' :: t' != t ==> Get(t', r) == Get(t', h)
  {
    match t
    case Urgency => h.(urgency := StoreInt(h.urgency, v))
    case FgColor => h.(fgcolor := StoreStr(h.fgcolor, v))
    case BgColor => h.(bgcolor := StoreStr(h.bgcolor, v))
  }

  /** Storing the same value twice is storing it once: what makes the daemon's re-reading loop harmless. */
  lemma StoreIdempotent(t: Target, v: Option<Arg>, h: Slots)
    ensures Store(t, v, Store(t, v, h)) == Store(t, v, h)
  {
    if t == Urgency && v.Some? && v.value.Byte? {
      var once := StoreInt(h.urgency, v);
      var b := v.value.b;
      LowByteReplaced(once, b);
      assert once == 0x100 * (once / 0x100) + b;
      assert once - once % 0x100 + b == once;
    }
  }

  /** Stores into different targets do not interfere. */
  lemma StoresCommute(t1: Target, v1: Option<Arg>, t2: Target, v2: Option<Arg>, h: Slots)
    requires t1 != t2
    ensures Store(t1, v1, Store(t2, v2, h)) == Store(t2, v2, Store(t1, v1, h))
  {
  }

  /**
   * The first value inside the element at index j: what _extract_hint reads
   * after stepping past the key at j - 1 and recursing into the next element.
   */
  function FirstChild(fields: seq<Arg>, j: nat): (r: Option<Arg>)
    ensures 0 < j <= |fields| ==> r == Current(Recurse(Next(Cursor(fields, j - 1)).0))
    ensures j >= |fields| ==> r.None?
  {
    if j < |fields| && |Children(fields[j])| > 0 then Some(Children(fields[j])[0]) else None
  }

  /**
   * The walk over one dict entry from index i: elements that are not strings
   * are passed over; a string that names a hint takes the first value inside
   * the element after it and ends the entry; any other string is passed over.
   */
  function ScanEntry(fields: seq<Arg>, i: nat, h: Slots): Slots
    decreases |fields| - i
  {
    if i >= |fields| then h
    else match fields[i]
      case Str(name) =>
        (match HintTarget(name)
         case Some(t) => Store(t, FirstChild(fields, i + 1), h)
         case None => ScanEntry(fields, i + 1, h))
      case _ => ScanEntry(fields, i + 1, h)
  }

  /** The walk over the whole hint array: its entries in order, each from its first element. */
  function ScanHints(entries: seq<Arg>, h: Slots): Slots
  {
    if entries == [] then h
    else ScanEntry(Children(entries[|entries| - 1]), 0, ScanHints(entries[..|entries| - 1], h))
  }

  /**
   * _extract_hint: when the key read by the caller is `name`, step onto the
   * value, recurse into it and read its first value into the target, re-reading
   * it while the entry cursor can still advance, so the entry cursor ends past
   * the entry's last element. Otherwise nothing happens.
   */
  method ExtractHint(name: string, hintName: string, hint: Cursor, target: Target, h: Slots)
    returns (hint': Cursor, h': Slots)
    requires Valid(hint) && name == TargetName(target)
    ensures Valid(hint') && hint'.args == hint.args
    ensures hintName != name ==> hint' == hint && h' == h
    ensures hintName == name ==> hint'.pos == |hint.args|
    ensures hintName == name ==> h' == Store(target, FirstChild(hint.args, hint.pos + 1), h)
  {
    hint', h' := hint, h;
    if hintName == name {
      var more: bool;
      var step := Next(hint');
      hint', more := step.0, step.1;
      var hintValue := Recurse(hint');
      ghost var v := Current(hintValue);
      assert v == FirstChild(hint.args, hint.pos + 1);
      h' := Store(target, Current(hintValue), h');
      step := Next(hint');
      hint', more := step.0, step.1;
      while more
        invariant Valid(hint') && hint'.args == hint.args
        invariant more <==> hint'.pos < |hint.args|
        invariant !more ==> hint'.pos == |hint.args|
        invariant h' == Store(target, v, h)
        decreases |hint.args| - hint'.pos
      {
        StoreIdempotent(target, v, h);
        h' := Store(target, Current(hintValue), h');
        step := Next(hint');
        hint', more := step.0, step.1;
      }
    }
  }

  /**
   * The inner loop of the hint walk, over the elements of one entry: a
   * non-string element is stepped over, a string is a key offered to the
   * three targets in turn.
   */
  method WalkEntry(hint0: Cursor, h0: Slots) returns (h: Slots)
    requires hint0.pos == 0
    ensures h == ScanEntry(hint0.args, 0, h0)
  {
    var hint := hint0;
    h := h0;
    while ArgType(hint) != TInvalid
      invariant Valid(hint) && hint.args == hint0.args
      invariant ScanEntry(hint0.args, hint.pos, h) == ScanEntry(hint0.args, 0, h0)
      decreases |hint0.args| - hint.pos
    {
      if ArgType(hint) != TString {
        hint := Next(hint).0;
        continue;
      }
      var hintName := Current(hint).value.s;
      ghost var before := h;
      ghost var at := hint.pos;
      hint, h := ExtractHint("urgency", hintName, hint, Urgency, h);
      hint, h := ExtractHint("fgcolor", hintName, hint, FgColor, h);
      hint, h := ExtractHint("bgcolor", hintName, hint, BgColor, h);
      assert ScanEntry(hint0.args, at, before) == ScanEntry(hint0.args, hint.pos, h) by {
        match HintTarget(hintName)
        case Some(t) =>
        case None =>
      }
      hint := Next(hint).0;
    }
  }

  /**
   * The hint walk of the Notify handler: for every element of the hint array,
   * recurse into it and walk its elements (WalkEntry).
   */
  method WalkHints(hints0: Cursor, h0: Slots) returns (h: Slots)
    requires hints0.pos == 0
    ensures h == ScanHints(hints0.args, h0)
  {
    var hints := hints0;
    h := h0;
    while ArgType(hints) != TInvalid
      invariant Valid(hints) && hints.args == hints0.args
      invariant h == ScanHints(hints0.args[..hints.pos], h0)
      decreases |hints0.args| - hints.pos
    {
      var hint := Recurse(hints);
      h := WalkEntry(hint, h);
      assert hints0.args[..hints.pos + 1][..hints.pos] == hints0.args[..hints.pos];
      hints := Next(hints).0;
    }
    assert hints0.args[..hints.pos] == hints0.args;
  }

  // Properties of the walk

  /** Walking two pieces of a hint array is walking the whole. */
  lemma {:induction false} ScanHintsAppend(a: seq<Arg>, b: seq<Arg>, h: Slots)
    ensures ScanHints(a + b, h) == ScanHints(b, ScanHints(a, h))
    decreases |b|
  {
    if b == [] {
      assert a + b == a;
    } else {
      var b' := b[..|b| - 1];
      assert (a + b)[..|a + b| - 1] == a + b';
      ScanHintsAppend(a, b', h);
    }
  }

  /** Within one entry, a target whose name no string element carries is left as it was. */
  lemma {:induction false} ScanEntryKeepsUnnamed(fields: seq<Arg>, i: nat, h: Slots, t: Target)
    requires forall j :: 0 <= j < |fields| ==> fields[j] != Str(TargetName(t))
    ensures Get(t, ScanEntry(fields, i, h)) == Get(t, h)
    decreases |fields| - i
  {
    if i < |fields| {
      match fields[i]
      case Str(name) =>
        if HintTarget(name).None? {
          ScanEntryKeepsUnnamed(fields, i + 1, h, t);
        }
      case _ =>
        ScanEntryKeepsUnnamed(fields, i + 1, h, t);
    }
  }

  /**
   * A hint that is absent leaves its target untouched: when no element of any
   * entry is the string naming the target, the walk does not change it, however
   * the rest of the array looks.
   */
  lemma {:induction false} AbsentHintUntouched(entries: seq<Arg>, h: Slots, t: Target)
    requires forall k, j :: 0 <= k < |entries| && 0 <= j < |Children(entries[k])| ==>
      Children(entries[k])[j] != Str(TargetName(t))
    ensures Get(t, ScanHints(entries, h)) == Get(t, h)
  {
    if entries != [] {
      var prefix := entries[..|entries| - 1];
      AbsentHintUntouched(prefix, h, t);
      ScanEntryKeepsUnnamed(Children(entries[|entries| - 1]), 0, ScanHints(prefix, h), t);
    }
  }

  /** Keys other than the three hint names, and keys that are not strings, change nothing at all. */
  lemma UnknownKeysIgnored(entries: seq<Arg>, h: Slots)
    requires forall k, j :: 0 <= k < |entries| && 0 <= j < |Children(entries[k])| ==>
      !(Children(entries[k])[j].Str? && HintTarget(Children(entries[k])[j].s).Some?)
    ensures ScanHints(entries, h) == h
  {
    forall t: Target
      ensures Get(t, ScanHints(entries, h)) == Get(t, h)
    {
      forall k, j | 0 <= k < |entries| && 0 <= j < |Children(entries[k])|
        ensures Children(entries[k])[j] != Str(TargetName(t))
      {
        assert HintTarget(TargetName(t)) == Some(t);
      }
      AbsentHintUntouched(entries, h, t);
    }
    var r := ScanHints(entries, h);
    assert Get(Urgency, r) == Get(Urgency, h) && Get(FgColor, r) == Get(FgColor, h) && Get(BgColor, r) == Get(BgColor, h);
  }

  /** The shape the protocol gives a hint: a dict entry of a string key and a variant value. */
  predicate IsHintEntry(e: Arg) {
    e.Entry? && |e.fields| == 2 && e.fields[0].Str? && e.fields[1].Variant?
  }

  predicate AllHintEntries(entries: seq<Arg>) {
    forall k :: 0 <= k < |entries| ==> IsHintEntry(entries[k])
  }

  function KeyOf(e: Arg): string
    requires IsHintEntry(e)
  {
    e.fields[0].s
  }

  function ValueOf(e: Arg): Arg
    requires IsHintEntry(e)
  {
    e.fields[1].inner
  }

  /** Reference reading of a well-formed hint table: the value of the last entry carrying the key. */
  function LastHint(entries: seq<Arg>, key: string): (r: Option<Arg>)
    requires AllHintEntries(entries)
  {
    if entries == [] then None
    else
      var e := entries[|entries| - 1];
      if KeyOf(e) == key then Some(ValueOf(e)) else LastHint(entries[..|entries| - 1], key)
  }

  /** A value the target takes as a whole whatever it held before: a 32-bit integer for urgency, a string for a colour. */
  predicate Overwrites(t: Target, v: Arg) {
    if t == Urgency then v.I32? || v.U32? else v.Str?
  }

  /** What the target holds after an overwriting value was stored into it. */
  function Written(t: Target, v: Arg): SlotValue
    requires Overwrites(t, v)
  {
    match v
    case I32(i) => IntValue(i)
    case U32(u) => IntValue(AsInt32(u))
    case Str(s) => StrValue(Some(s))
  }

  /** In a well-formed entry, the walk stores the entry's value into the target its key names, if any. */
  lemma ScanHintEntry(e: Arg, h: Slots)
    requires IsHintEntry(e)
    ensures ScanEntry(Children(e), 0, h) ==
      match HintTarget(KeyOf(e))
      case Some(t) => Store(t, Some(ValueOf(e)), h)
      case None => h
  {
    var fs := Children(e);
    if HintTarget(KeyOf(e)).None? {
      assert ScanEntry(fs, 0, h) == ScanEntry(fs, 1, h) == ScanEntry(fs, 2, h);
    }
  }

  /**
   * Across entries with the same key, the last one wins when its value has the
   * target's own width (an int32 or uint32 for urgency, a string for a colour):
   * in a well-formed hint table the target then holds that value, and it is
   * untouched when no entry carries its key. A byte urgency replaces only the
   * low byte of whatever came before; see ByteUrgencyLastWins.
   */
  lemma {:induction false} HintsLastWins(entries: seq<Arg>, h: Slots, t: Target)
    requires AllHintEntries(entries)
    ensures LastHint(entries, TargetName(t)).None? ==> Get(t, ScanHints(entries, h)) == Get(t, h)
    ensures var last := LastHint(entries, TargetName(t));
      last.Some? && Overwrites(t, last.value) ==> Get(t, ScanHints(entries, h)) == Written(t, last.value)
  {
    if entries != [] {
      var prefix := entries[..|entries| - 1];
      var e := entries[|entries| - 1];
      var before := ScanHints(prefix, h);
      ScanHintEntry(e, before);
      if KeyOf(e) != TargetName(t) {
        HintsLastWins(prefix, h, t);
        match HintTarget(KeyOf(e))
        case Some(t') =>
        case None =>
      } else {
        assert HintTarget(KeyOf(e)) == Some(t);
      }
    }
  }

  /**
   * The urgency hint as the protocol sends it, a byte: when every urgency entry
   * carries a byte and the seeded value is itself a byte, the result is the last
   * byte sent, or the seeded value when there is none.
   */
  lemma {:induction false} ByteUrgencyLastWins(entries: seq<Arg>, h: Slots)
    requires AllHintEntries(entries)
    requires forall k :: 0 <= k < |entries| && KeyOf(entries[k]) == "urgency" ==> ValueOf(entries[k]).Byte?
    requires 0 <= h.urgency < 0x100
    ensures var last := LastHint(entries, "urgency");
      ScanHints(entries, h).urgency == if last.Some? && last.value.Byte? then last.value.b else h.urgency
    ensures 0 <= ScanHints(entries, h).urgency < 0x100
  {
    if entries != [] {
      var prefix := entries[..|entries| - 1];
      var e := entries[|entries| - 1];
      var before := ScanHints(prefix, h);
      ByteUrgencyLastWins(prefix, h);
      ScanHintEntry(e, before);
      if KeyOf(e) == "urgency" {
        var b := ValueOf(e).b;
        LowByteReplaced(before.urgency, b);
        assert before.urgency % 0x100 == before.urgency;
      } else {
        match HintTarget(KeyOf(e))
        case Some(t') => assert t' != Urgency;
        case None =>
      }
    }
  }

  /** Entries with distinct keys may be swapped: the walk is order-independent for different hints. */
  lemma HintsCommute(pre: seq<Arg>, e1: Arg, e2: Arg, post: seq<Arg>, h: Slots)
    requires IsHintEntry(e1) && IsHintEntry(e2) && KeyOf(e1) != KeyOf(e2)
    ensures ScanHints(pre + [e1, e2] + post, h) == ScanHints(pre + [e2, e1] + post, h)
  {
    var x := ScanHints(pre, h);
    ScanHintsAppend(pre + [e1, e2], post, h);
    ScanHintsAppend(pre, [e1, e2], h);
    ScanHintsAppend(pre + [e2, e1], post, h);
    ScanHintsAppend(pre, [e2, e1], h);
    assert [e1, e2][..1] == [e1] && [e2, e1][..1] == [e2];
    assert [e1][..0] == [] && [e2][..0] == [];
    assert ScanHints([e1], x) == ScanEntry(Children(e1), 0, x);
    assert ScanHints([e2], x) == ScanEntry(Children(e2), 0, x);
    assert ScanHints([e1, e2], x) == ScanEntry(Children(e2), 0, ScanEntry(Children(e1), 0, x));
    assert ScanHints([e2, e1], x) == ScanEntry(Children(e1), 0, ScanEntry(Children(e2), 0, x));
    ScanHintEntry(e1, x);
    ScanHintEntry(e2, x);
    ScanHintEntry(e1, ScanEntry(Children(e2), 0, x));
    ScanHintEntry(e2, ScanEntry(Children(e1), 0, x));
    match HintTarget(KeyOf(e1))
    case None =>
    case Some(t1) =>
      match HintTarget(KeyOf(e2))
      case None =>
      case Some(t2) =>
        StoresCommute(t1, Some(ValueOf(e1)), t2, Some(ValueOf(e2)), x);
  }
}
