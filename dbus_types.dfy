/**
 * The D-Bus argument stream as the notification daemon sees it: typed arguments,
 * the containers it recurses into (array, dict entry, variant) and a forward-only
 * cursor standing for libdbus's DBusMessageIter.
 *
 * A DBusMessageIter is a small struct on the caller's stack that libdbus updates
 * through a pointer; here it is the value `Cursor`, and "advancing the iterator"
 * is reassigning the caller's variable with `Next`.
 */
module DBusTypes {

  type Uint8 = x: int | 0 <= x < 0x100
  type Uint32 = x: int | 0 <= x < 0x1_0000_0000
  type Int32 = x: int | -0x8000_0000 <= x < 0x8000_0000

  datatype Option<T> = None | Some(value: T)

  /** The type codes the core compares against; TInvalid is what the cursor reports past the end. */
  datatype TypeTag =
    | TString | TUint32 | TInt32 | TByte
    | TArray | TDictEntry | TVariant
    | TOther
    | TInvalid

  predicate IsBasic(t: TypeTag) {
    t == TString || t == TUint32 || t == TInt32 || t == TByte || t == TOther
  }

  /** One argument of a message (or element of a container). `Other` is any basic type the core never reads. */
  datatype Arg =
    | Str(s: string)
    | U32(u: Uint32)
    | I32(i: Int32)
    | Byte(b: Uint8)
    | Arr(elems: seq<Arg>)
    | Entry(fields: seq<Arg>)
    | Variant(inner: Arg)
    | Other

  function TypeOf(a: Arg): (t: TypeTag)
    ensures t != TInvalid
    ensures IsBasic(t) <==> !(a.Arr? || a.Entry? || a.Variant?)
  {
    match a
    case Str(_) => TString
    case U32(_) => TUint32
    case I32(_) => TInt32
    case Byte(_) => TByte
    case Arr(_) => TArray
    case Entry(_) => TDictEntry
    case Variant(_) => TVariant
    case Other => TOther
  }

  /**
   * What a recursion into `a` walks over. A variant holds exactly one value.
   * Recursing into a basic value is an assertion failure inside libdbus; the
   * model gives an empty walk there.
   */
  function Children(a: Arg): seq<Arg> {
    match a
    case Arr(es) => es
    case Entry(fs) => fs
    case Variant(v) => [v]
    case _ => []
  }

  /** DBusMessageIter: the arguments being walked and the index of the current one. */
  datatype Cursor = Cursor(args: seq<Arg>, pos: nat)

  predicate Valid(c: Cursor) {
    c.pos <= |c.args|
  }

  /** dbus_message_iter_init and the sub-iterator made by a recursion both start at the first argument. */
  function Init(args: seq<Arg>): (c: Cursor)
    ensures Valid(c) && c.args == args && c.pos == 0
  {
    Cursor(args, 0)
  }

  function Current(c: Cursor): (r: Option<Arg>)
    ensures r.Some? <==> c.pos < |c.args|
  {
    if c.pos < |c.args| then Some(c.args[c.pos]) else None
  }

  /** dbus_message_iter_get_arg_type */
  function ArgType(c: Cursor): (t: TypeTag)
    ensures t == TInvalid <==> c.pos >= |c.args|
    ensures c.pos < |c.args| ==> t == TypeOf(c.args[c.pos])
  {
    match Current(c)
    case Some(a) => TypeOf(a)
    case None => TInvalid
  }

  /**
   * dbus_message_iter_next: moves to the following argument, never past the end;
   * the flag says whether the cursor now stands on an argument.
   */
  function Next(c: Cursor): (r: (Cursor, bool))
    requires Valid(c)
    ensures Valid(r.0) && r.0.args == c.args
    ensures r.0.pos == if c.pos < |c.args| then c.pos + 1 else c.pos
    ensures r.1 <==> r.0.pos < |c.args|
  {
    if c.pos < |c.args| then (Cursor(c.args, c.pos + 1), c.pos + 1 < |c.args|) else (c, false)
  }

  /** dbus_message_iter_recurse: a fresh cursor over the contents of the current container. */
  function Recurse(c: Cursor): (sub: Cursor)
    ensures Valid(sub) && sub.pos == 0
    ensures sub.args == if c.pos < |c.args| then Children(c.args[c.pos]) else []
  {
    match Current(c)
    case Some(a) => Init(Children(a))
    case None => Init([])
  }

  /**
   * The soft typed read of the decoder: the current argument when its type is
   * the expected one, and nothing otherwise. It takes a cursor and returns no
   * cursor, so reading never moves the iterator; callers keep their own default
   * when the result is None.
   */
  function ExtractBasic(expected: TypeTag, c: Cursor): (r: Option<Arg>)
    requires IsBasic(expected)
    ensures r.Some? <==> ArgType(c) == expected
    ensures r.Some? ==> c.pos < |c.args| && r.value == c.args[c.pos] && TypeOf(r.value) == expected
  {
    match Current(c)
    case Some(a) => if TypeOf(a) == expected then Some(a) else None
    case None => None
  }

  /** The 32 bits of an unsigned value read back as a two's complement int. */
  function AsInt32(u: Uint32): (i: Int32)
    ensures i % 0x1_0000_0000 == u
    ensures i >= 0 <==> u < 0x8000_0000
  {
    if u < 0x8000_0000 then u else u - 0x1_0000_0000
  }

  /** The low 32 bits of an integer, as an unsigned value (a C int appended as UINT32). */
  function AsUint32(i: int): (u: Uint32)
    ensures (i - u) % 0x1_0000_0000 == 0
    ensures 0 <= i < 0x1_0000_0000 ==> u == i
    ensures -0x8000_0000 <= i < 0x8000_0000 ==> AsInt32(u) == i
  {
    i % 0x1_0000_0000
  }
}
