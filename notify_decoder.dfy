/**
 * Decoding of a Notify request into a notification record: eight positional
 * arguments read with caller-seeded defaults, the hint walk, the rounding of the
 * expiry from milliseconds to seconds, and the record handed to the queue.
 */
module NotifyDecoder {
  import opened DBusTypes
  import opened Hints

  /** What the handler holds after reading the request, before rounding the expiry. */
  datatype Decoded = Decoded(
    appname: Option<string>,
    replacesId: Uint32,
    icon: Option<string>,
    summary: Option<string>,
    body: Option<string>,
    hints: Slots,
    expires: Int32)

  /** The string at position k, or nothing when it is missing or of another type. */
  function StrAt(args: seq<Arg>, k: nat): Option<string> {
    if k < |args| && args[k].Str? then Some(args[k].s) else None
  }

  function U32At(args: seq<Arg>, k: nat, default: Uint32): Uint32 {
    if k < |args| && args[k].U32? then args[k].u else default
  }

  function I32At(args: seq<Arg>, k: nat, default: Int32): Int32 {
    if k < |args| && args[k].I32? then args[k].i else default
  }

  /**
   * The elements of whatever container stands at position 6; none for a basic
   * value there or for a request with fewer than seven arguments, where libdbus
   * refuses the recursion and the model walks nothing.
   */
  function HintArray(args: seq<Arg>): (r: seq<Arg>)
    ensures 6 < |args| && args[6].Arr? ==> r == args[6].elems
    ensures |args| <= 6 || IsBasic(TypeOf(args[6])) ==> r == []
  {
    if 6 < |args| then Children(args[6]) else []
  }

  /**
   * The fields of a Notify request by position: application name 0, replaced id 1,
   * icon 2, summary 3, body 4, hints 6, expiry 7; position 5 (actions) is not read.
   * A missing or mistyped argument leaves the seeded default: no strings, id 0,
   * expiry -1, urgency 1 and no colours.
   */
  function Decode(args: seq<Arg>): Decoded {
    Decoded(
      StrAt(args, 0),
      U32At(args, 1, 0),
      StrAt(args, 2),
      StrAt(args, 3),
      StrAt(args, 4),
      ScanHints(HintArray(args), Defaults),
      I32At(args, 7, -1))
  }

  /**
   * The argument reading of the Notify handler: one cursor advanced step by step
   * over the request, a soft typed read at each position, a recursion into the
   * hint array and the hint walk.
   */
  method DecodeNotify(msgArgs: seq<Arg>) returns (d: Decoded)
    ensures d == Decode(msgArgs)
  {
    var appname: Option<string> := None;
    var summary: Option<string> := None;
    var body: Option<string> := None;
    var icon: Option<string> := None;
    var replacesId: Uint32 := 0;
    var expires: Int32 := -1;

    var args := Init(msgArgs);
    appname := ExtractString(args, appname);
    assert appname == StrAt(msgArgs, 0);
    args := Next(args).0;
    assert args.args == msgArgs && args.pos == if 1 <= |msgArgs| then 1 else |msgArgs|;
    replacesId := ExtractUint32(args, replacesId);
    assert replacesId == U32At(msgArgs, 1, 0);
    args := Next(args).0;
    assert args.args == msgArgs && args.pos == if 2 <= |msgArgs| then 2 else |msgArgs|;
    icon := ExtractString(args, icon);
    assert icon == StrAt(msgArgs, 2);
    args := Next(args).0;
    assert args.args == msgArgs && args.pos == if 3 <= |msgArgs| then 3 else |msgArgs|;
    summary := ExtractString(args, summary);
    assert summary == StrAt(msgArgs, 3);
    args := Next(args).0;
    assert args.args == msgArgs && args.pos == if 4 <= |msgArgs| then 4 else |msgArgs|;
    body := ExtractString(args, body);
    assert body == StrAt(msgArgs, 4);
    args := Next(args).0;
    assert args.args == msgArgs && args.pos == if 5 <= |msgArgs| then 5 else |msgArgs|;
    args := Next(args).0;
    assert args.args == msgArgs && args.pos == if 6 <= |msgArgs| then 6 else |msgArgs|;
    var hints := Recurse(args);
    assert hints.args == HintArray(msgArgs);
    args := Next(args).0;
    assert args.args == msgArgs && args.pos == if 7 <= |msgArgs| then 7 else |msgArgs|;
    expires := ExtractInt32(args, expires);
    assert expires == I32At(msgArgs, 7, -1);
    var slots := WalkHints(hints, Defaults);
    d := Decoded(appname, replacesId, icon, summary, body, slots, expires);
  }

  /** The soft typed read into a `const char *`: the target changes only when the current argument is a string. */
  method ExtractString(c: Cursor, target: Option<string>) returns (target': Option<string>)
    ensures target' == if c.pos < |c.args| && c.args[c.pos].Str? then Some(c.args[c.pos].s) else target
  {
    target' := target;
    match ExtractBasic(TString, c) {
      case Some(Str(s)) => target' := Some(s);
      case _ =>
    }
  }

  /** The soft typed read into a `dbus_uint32_t`. */
  method ExtractUint32(c: Cursor, target: Uint32) returns (target': Uint32)
    ensures target' == if c.pos < |c.args| && c.args[c.pos].U32? then c.args[c.pos].u else target
  {
    target' := target;
    match ExtractBasic(TUint32, c) {
      case Some(U32(u)) => target' := u;
      case _ =>
    }
  }

  /** The soft typed read into a `dbus_int32_t`. */
  method ExtractInt32(c: Cursor, target: Int32) returns (target': Int32)
    ensures target' == if c.pos < |c.args| && c.args[c.pos].I32? then c.args[c.pos].i else target
  {
    target' := target;
    match ExtractBasic(TInt32, c) {
      case Some(I32(i)) => target' := i;
      case _ =>
    }
  }

  /**
   * The expiry in seconds: a positive number of milliseconds rounded half up,
   * and never below one second; zero and negative values ("server decides")
   * pass through. Computed without overflow.
   */
  function RoundTimeout(expires: int): (t: int)
    ensures expires <= 0 ==> t == expires
    ensures expires > 0 ==> t >= 1
    ensures expires > 0 && t == 1 ==> expires < 1500
    ensures expires > 0 && t > 1 ==> 1000 * t - 500 <= expires < 1000 * t + 500
  {
    if expires > 0 then
      var rounded := (expires + 500) / 1000;
      if rounded < 1 then 1 else rounded
    else expires
  }

  /** The rounding pinned at its boundaries. */
  lemma RoundTimeoutBoundaries()
    ensures RoundTimeout(1) == 1 && RoundTimeout(499) == 1 && RoundTimeout(500) == 1
    ensures RoundTimeout(1499) == 1 && RoundTimeout(1500) == 2 && RoundTimeout(2500) == 3
    ensures RoundTimeout(0) == 0 && RoundTimeout(-1) == -1
  {
  }

  /** A positive expiry rounds to a value that fits the C int the record keeps. */
  lemma RoundTimeoutFits(expires: Int32)
    ensures -0x8000_0000 <= RoundTimeout(expires) < 0x8000_0000
  {
  }

  /** Two's complement wrap-around of a 32-bit signed sum: its low 32 bits read as an int. */
  function Wrap32(x: int): (r: Int32)
    ensures (x - r) % 0x1_0000_0000 == 0
  {
    AsInt32(AsUint32(x))
  }

  /** C division of ints, which truncates toward zero. */
  function TruncDiv(a: int, b: int): int
    requires b > 0
  {
    if a >= 0 then a / b else -((-a) / b)
  }

  /**
   * The rounding as the daemon's code computes it on a 32-bit int: the sum
   * expires + 500 wraps (what two's complement hardware gives for this
   * undefined overflow) and the division truncates toward zero.
   */
  function RoundTimeoutAsWritten(expires: Int32): (t: Int32)
    ensures expires <= 0 ==> t == expires
    ensures expires > 0 ==> t >= 1
  {
    if expires > 0 then
      var rounded := TruncDiv(Wrap32(expires + 500), 1000);
      if rounded < 1 then 1 else rounded
    else expires
  }

  /** Away from the overflow the code computes the intended rounding. */
  lemma RoundTimeoutAgrees(expires: Int32)
    requires expires <= 0x7FFF_FFFF - 500
    ensures RoundTimeoutAsWritten(expires) == RoundTimeout(expires)
  {
  }

  /**
   * Every expiry above 2147483147 ms wraps to a negative sum and comes out as
   * one second, where the intended rounding gives at least 2147483 seconds;
   * the largest expiry, about 24.8 days, should give 2147484.
   */
  lemma RoundTimeoutOverflow(expires: Int32)
    requires expires > 0x7FFF_FFFF - 500
    ensures RoundTimeoutAsWritten(expires) == 1
    ensures RoundTimeout(expires) >= 2147483
    ensures expires == 0x7FFF_FFFF ==> RoundTimeout(expires) == 2147484
  {
    assert Wrap32(expires + 500) < 0;
  }

  // The notification record

  /** Indices of the colour strings in the record. */
  const ColBG: nat := 0
  const ColFG: nat := 1
  const ColLast: nat := 2

  /** The fields of the notification record that the handler fills. */
  datatype Notification = Notification(
    appname: string,
    summary: string,
    body: string,
    icon: string,
    timeout: int,
    urgency: Int32,
    colorStrings: seq<Option<string>>)

  /** A record, or the copy of a missing string that the handler attempts (a NULL pointer handed to strdup). */
  datatype Built = Built(n: Notification) | NullStrdup

  /**
   * The record built from the decoded request: the four strings copied, the
   * rounded expiry, the urgency from the hints, every colour slot empty except
   * the foreground and background ones, which hold the colour hints.
   */
  function Record(d: Decoded): (b: Built)
    ensures b.NullStrdup? <==> d.appname.None? || d.summary.None? || d.body.None? || d.icon.None?
    ensures b.Built? ==>
      Some(b.n.appname) == d.appname && Some(b.n.summary) == d.summary &&
      Some(b.n.body) == d.body && Some(b.n.icon) == d.icon
    ensures b.Built? ==> b.n.timeout == RoundTimeout(d.expires) && b.n.urgency == d.hints.urgency
    ensures b.Built? ==> |b.n.colorStrings| == ColLast
    ensures b.Built? ==> b.n.colorStrings[ColFG] == d.hints.fgcolor && b.n.colorStrings[ColBG] == d.hints.bgcolor
    ensures b.Built? ==> forall i :: 0 <= i < ColLast && i != ColFG && i != ColBG ==> b.n.colorStrings[i].None?
  {
    if d.appname.None? || d.summary.None? || d.body.None? || d.icon.None? then NullStrdup
    else
      var colors := seq(ColLast, i requires 0 <= i < ColLast =>
        if i == ColFG then d.hints.fgcolor else if i == ColBG then d.hints.bgcolor else None);
      Built(Notification(d.appname.value, d.summary.value, d.body.value, d.icon.value,
                         RoundTimeout(d.expires), d.hints.urgency, colors))
  }

  /**
   * The record construction of the Notify handler: the expiry rounded in place,
   * the four strings copied, then every colour slot cleared in a loop before the
   * foreground and background slots are set.
   */
  method BuildRecord(d: Decoded) returns (b: Built)
    ensures b == Record(d)
  {
    var expires: int := d.expires;
    if expires > 0 {
      expires := (expires + 500) / 1000;
      if expires < 1 {
        expires := 1;
      }
    }
    if d.appname.None? || d.summary.None? || d.body.None? || d.icon.None? {
      return NullStrdup;
    }
    var colors := new Option<string>[ColLast];
    for i := 0 to ColLast
      invariant forall j :: 0 <= j < i ==> colors[j].None?
    {
      colors[i] := None;
    }
    colors[ColFG] := d.hints.fgcolor;
    colors[ColBG] := d.hints.bgcolor;
    b := Built(Notification(d.appname.value, d.summary.value, d.body.value, d.icon.value,
                            expires, d.hints.urgency, colors[..]));
  }

  // Properties of the decoding

  /** A request without arguments decodes to the seeded defaults. */
  lemma DecodeEmpty()
    ensures Decode([]) == Decoded(None, 0, None, None, None, Defaults, -1)
  {
    assert ScanHints([], Defaults) == Defaults;
  }

  /** The actions argument at position 5 is never read. */
  lemma DecodeIgnoresActions(args: seq<Arg>, actions: Arg)
    requires 5 < |args|
    ensures Decode(args[5 := actions]) == Decode(args)
  {
    assert HintArray(args[5 := actions]) == HintArray(args);
  }

  /** Arguments after the expiry are never read. */
  lemma DecodeIgnoresExtra(args: seq<Arg>, extra: seq<Arg>)
    requires 8 <= |args|
    ensures Decode(args + extra) == Decode(args)
  {
    assert HintArray(args + extra) == HintArray(args);
  }

  /**
   * A mistyped argument keeps the default of its field and disturbs no other
   * field: replacing the argument at a read position by one of a type no field
   * reads changes only that field, back to its default; past position 7 it
   * changes nothing.
   */
  lemma DecodeMistypedField(args: seq<Arg>, k: nat)
    requires k < |args| && k != 5 && k != 6
    ensures var d := Decode(args[k := Other]);
      d == (match k
            case 0 => Decode(args).(appname := None)
            case 1 => Decode(args).(replacesId := 0)
            case 2 => Decode(args).(icon := None)
            case 3 => Decode(args).(summary := None)
            case 4 => Decode(args).(body := None)
            case 7 => Decode(args).(expires := -1)
            case _ => Decode(args))
  {
    assert HintArray(args[k := Other]) == HintArray(args);
  }

  /**
   * The example request: application "x", no replaced id, empty icon, summary
   * "hi", empty body, an urgency hint of 2 and an expiry of 2500 ms decodes to
   * urgency 2 and a timeout of 3 seconds.
   */
  lemma DecodeExample()
    ensures var args := [Str("x"), U32(0), Str(""), Str("hi"), Str(""), Arr([]),
                         Arr([Entry([Str("urgency"), Variant(Byte(2))])]), I32(2500)];
      var b := Record(Decode(args));
      b.Built? && b.n.appname == "x" && b.n.summary == "hi" && b.n.body == "" && b.n.icon == "" &&
      b.n.urgency == 2 && b.n.timeout == 3 && Decode(args).replacesId == 0 &&
      b.n.colorStrings == [None, None]
  {
    var entry := Entry([Str("urgency"), Variant(Byte(2))]);
    var hints := [entry];
    assert hints[..0] == [];
    assert ScanEntry(Children(entry), 0, Defaults) == Store(Urgency, Some(Byte(2)), Defaults);
    assert ScanHints(hints, Defaults) == Slots(2, None, None);
  }
}
