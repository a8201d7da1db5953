/**
 Index placeholders in Plutus data: an `int` field may name an input, a reference input or a withdrawal, and
 is replaced with its position in ledger order.
 */
module Placeholders {
  import opened Options
  import opened Chain
  import opened LedgerOrder

  const MAX_WALK_DEPTH := 64

  // ---------------------------------------------------------------- data

  datatype Json = Null | Bool(b: bool) | Number(n: int) | Text(text: string) | Array(items: Items) | Object(fields: Fields)
  datatype Items = Nil | Item(head: Json, tail: Items)
  datatype Fields = End | Field(key: string, value: Json, rest: Fields)

  /** Positions are looked up in these lists; a build without withdrawals or reference inputs lacks them. */
  datatype Context = Context(inputs: seq<OutPoint>, references: Option<seq<OutPoint>>, withdrawals: Option<seq<string>>)

  datatype WalkError = TooDeep | NotSupported(text: string) | UnknownRef(text: string)

  datatype Walked<+T> = Done(value: T) | Failed(error: WalkError)

  // ---------------------------------------------------------------- the three forms

  datatype Placeholder = InputIdx(ref: OutPoint) | RefIdx(ref: OutPoint) | WdrlIdx(credential: string)

  predicate IsDigits(s: string) {
    s != "" && forall i :: 0 <= i < |s| ==> '0' <= s[i] <= '9'
  }

  function Decimal(s: string): nat {
    if s == "" then 0 else Decimal(s[..|s| - 1]) * 10 + if '0' <= s[|s| - 1] <= '9' then s[|s| - 1] as int - '0' as int else 0
  }

  predicate AllHex(s: string) {
    forall i :: 0 <= i < |s| ==> IsHexChar(s[i])
  }

  /** Prefix, 64 hex characters, '#', digits, "__": the whole text. */
  function ParseRef(prefix: string, text: string): Option<OutPoint> {
    var p := |prefix|;
    if |text| >= p + 68 && text[..p] == prefix && AllHex(text[p..p + 64]) && text[p + 64] == '#'
       && IsDigits(text[p + 65..|text| - 2]) && text[|text| - 2..] == "__"
    then Some(OutPoint(Lower(text[p..p + 64]), Decimal(text[p + 65..|text| - 2])))
    else None
  }

  /** Prefix, 56 hex characters, "__". */
  function ParseCredential(prefix: string, text: string): Option<string> {
    var p := |prefix|;
    if |text| == p + 58 && text[..p] == prefix && AllHex(text[p..p + 56]) && text[p + 56..] == "__"
    then Some(Lower(text[p..p + 56]))
    else None
  }

  function Parse(text: string): Option<Placeholder> {
    match ParseRef("__INPUT_IDX:", text)
    case Some(ref) => Some(InputIdx(ref))
    case None =>
      match ParseRef("__REF_IDX:", text)
      case Some(ref) => Some(RefIdx(ref))
      case None =>
        match ParseCredential("__WDRL_IDX:", text)
        case Some(c) => Some(WdrlIdx(c))
        case None => None
  }

  /** First position of an element, None without one. */
  function IndexOf<T(==)>(s: seq<T>, x: T): (r: Option<nat>)
    ensures r.Some? ==> r.value < |s| && s[r.value] == x && forall i :: 0 <= i < r.value ==> s[i] != x
    ensures r.None? ==> x !in s
  {
    if s == [] then None
    else if s[0] == x then Some(0)
    else
      match IndexOf(s[1..], x)
      case Some(i) => assert forall j :: 1 <= j < |s| ==> s[j] == s[1..][j - 1]; Some(i + 1)
      case None => None
  }

  function Located(text: string, found: Option<nat>): Walked<Option<int>> {
    if found.Some? then Done(Some(found.value)) else Failed(UnknownRef(text))
  }

  /** The position a text names; None when it is no placeholder. */
  function PositionOf(text: string, ctx: Context): Walked<Option<int>> {
    match Parse(text)
    case None => Done(None)
    case Some(InputIdx(ref)) => Located(text, IndexOf(ctx.inputs, ref))
    case Some(RefIdx(ref)) =>
      if ctx.references.None? then Failed(NotSupported(text)) else Located(text, IndexOf(ctx.references.value, ref))
    case Some(WdrlIdx(c)) =>
      if ctx.withdrawals.None? then Failed(NotSupported(text)) else Located(text, IndexOf(ctx.withdrawals.value, c))
  }

  // ---------------------------------------------------------------- the walk

  function Walk(node: Json, ctx: Context, depth: nat): Walked<Json>
    decreases node, 0
  {
    if depth > MAX_WALK_DEPTH then Failed(TooDeep)
    else match node
      case Array(items) =>
        (match WalkItems(items, ctx, depth + 1)
         case Done(r) => Done(Array(r))
         case Failed(e) => Failed(e))
      case Object(fields) =>
        (match WalkFields(fields, ctx, depth + 1)
         case Done(r) => Done(Object(r))
         case Failed(e) => Failed(e))
      case _ => Done(node)
  }

  function WalkItems(items: Items, ctx: Context, depth: nat): Walked<Items>
    decreases items, 0
  {
    match items
    case Nil => Done(Nil)
    case Item(head, tail) =>
      match Walk(head, ctx, depth)
      case Failed(e) => Failed(e)
      case Done(h) =>
        match WalkItems(tail, ctx, depth)
        case Failed(e) => Failed(e)
        case Done(t) => Done(Item(h, t))
  }

  /** Only a text under the key `int` can be a placeholder. */
  function WalkValue(key: string, value: Json, ctx: Context, depth: nat): Walked<Json>
    decreases value, 1
  {
    if key == "int" && value.Text? then
      match PositionOf(value.text, ctx)
      case Failed(e) => Failed(e)
      case Done(Some(position)) => Done(Number(position))
      case Done(None) => Walk(value, ctx, depth)
    else Walk(value, ctx, depth)
  }

  function WalkFields(fields: Fields, ctx: Context, depth: nat): Walked<Fields>
    decreases fields, 0
  {
    match fields
    case End => Done(End)
    case Field(key, value, rest) =>
      match WalkValue(key, value, ctx, depth)
      case Failed(e) => Failed(e)
      case Done(v) =>
        match WalkFields(rest, ctx, depth)
        case Failed(e) => Failed(e)
        case Done(r) => Done(Field(key, v, r))
  }

  function Append(a: Fields, b: Fields): Fields {
    match a
    case End => b
    case Field(k, v, rest) => Field(k, v, Append(rest, b))
  }

  lemma {:induction false} AppendAssociates(a: Fields, b: Fields, c: Fields)
    ensures Append(Append(a, b), c) == Append(a, Append(b, c))
  {
    if a.Field? {
      AppendAssociates(a.rest, b, c);
    }
  }

  lemma {:induction false} AppendEnd(a: Fields)
    ensures Append(a, End) == a
  {
    if a.Field? {
      AppendEnd(a.rest);
    }
  }

  function Prepended(out: Fields, rest: Walked<Fields>): Walked<Fields> {
    if rest.Done? then Done(Append(out, rest.value)) else rest
  }

  /** The walk of an object: its entries are copied one by one into a new record. */
  method FillRecord(fields: Fields, ctx: Context, depth: nat) returns (r: Walked<Fields>)
    ensures r == WalkFields(fields, ctx, depth)
  {
    var out: Fields := End;
    var entries := fields;
    while entries.Field?
      invariant WalkFields(fields, ctx, depth) == Prepended(out, WalkFields(entries, ctx, depth))
      decreases entries
    {
      var value := WalkValue(entries.key, entries.value, ctx, depth);
      if value.Failed? {
        return Failed(value.error);
      }
      ghost var before := out;
      out := Append(out, Field(entries.key, value.value, End));
      ghost var rest := WalkFields(entries.rest, ctx, depth);
      if rest.Done? {
        AppendAssociates(before, Field(entries.key, value.value, End), rest.value);
      }
      entries := entries.rest;
    }
    AppendEnd(out);
    r := Done(out);
  }

  // ---------------------------------------------------------------- what the walk does

  predicate IsPlaceholder(key: string, value: Json) {
    key == "int" && value.Text? && Parse(value.text).Some?
  }

  /** No `int` field holds a placeholder. */
  predicate Clean(node: Json) {
    match node
    case Array(items) => CleanItems(items)
    case Object(fields) => CleanFields(fields)
    case _ => true
  }

  predicate CleanItems(items: Items) {
    items.Item? ==> Clean(items.head) && CleanItems(items.tail)
  }

  predicate CleanFields(fields: Fields) {
    fields.Field? ==> !IsPlaceholder(fields.key, fields.value) && Clean(fields.value) && CleanFields(fields.rest)
  }

  /** The number stands where the named element is in its list, counting from 0. */
  predicate IsPosition(p: Placeholder, n: int, ctx: Context) {
    match p
    case InputIdx(ref) => 0 <= n < |ctx.inputs| && ctx.inputs[n] == ref && ref !in ctx.inputs[..n]
    case RefIdx(ref) => ctx.references.Some? && var s := ctx.references.value; 0 <= n < |s| && s[n] == ref && ref !in s[..n]
    case WdrlIdx(c) => ctx.withdrawals.Some? && var s := ctx.withdrawals.value; 0 <= n < |s| && s[n] == c && c !in s[..n]
  }

  /** `after` is `before` with every placeholder replaced by its position, and nothing else changed. */
  predicate Replaced(before: Json, after: Json, ctx: Context) {
    match before
    case Array(items) => after.Array? && ReplacedItems(items, after.items, ctx)
    case Object(fields) => after.Object? && ReplacedFields(fields, after.fields, ctx)
    case _ => after == before
  }

  predicate ReplacedItems(before: Items, after: Items, ctx: Context) {
    match before
    case Nil => after.Nil?
    case Item(head, tail) => after.Item? && Replaced(head, after.head, ctx) && ReplacedItems(tail, after.tail, ctx)
  }

  predicate ReplacedFields(before: Fields, after: Fields, ctx: Context) {
    match before
    case End => after.End?
    case Field(key, value, rest) =>
      && after.Field? && after.key == key && ReplacedFields(rest, after.rest, ctx)
      && (if IsPlaceholder(key, value) then after.value.Number? && IsPosition(Parse(value.text).value, after.value.n, ctx)
          else Replaced(value, after.value, ctx))
  }

  lemma PositionIs(text: string, ctx: Context)
    requires PositionOf(text, ctx).Done?
    ensures PositionOf(text, ctx).value.Some? <==> Parse(text).Some?
    ensures Parse(text).Some? ==> IsPosition(Parse(text).value, PositionOf(text, ctx).value.value, ctx)
  {
  }

  /** A walk that succeeds replaces exactly the placeholders, each by its position, and leaves none. */
  lemma {:induction false} WalkReplaces(node: Json, ctx: Context, depth: nat)
    requires Walk(node, ctx, depth).Done?
    ensures Replaced(node, Walk(node, ctx, depth).value, ctx) && Clean(Walk(node, ctx, depth).value)
    decreases node
  {
    match node
    case Array(items) => WalkReplacesItems(items, ctx, depth + 1);
    case Object(fields) => WalkReplacesFields(fields, ctx, depth + 1);
    case _ =>
  }

  lemma {:induction false} WalkReplacesItems(items: Items, ctx: Context, depth: nat)
    requires WalkItems(items, ctx, depth).Done?
    ensures ReplacedItems(items, WalkItems(items, ctx, depth).value, ctx) && CleanItems(WalkItems(items, ctx, depth).value)
    decreases items
  {
    if items.Item? {
      WalkReplaces(items.head, ctx, depth);
      WalkReplacesItems(items.tail, ctx, depth);
    }
  }

  lemma {:induction false} WalkReplacesFields(fields: Fields, ctx: Context, depth: nat)
    requires WalkFields(fields, ctx, depth).Done?
    ensures ReplacedFields(fields, WalkFields(fields, ctx, depth).value, ctx) && CleanFields(WalkFields(fields, ctx, depth).value)
    decreases fields
  {
    hide PositionOf, Parse, IsPosition;
    if fields.Field? {
      if fields.key == "int" && fields.value.Text? {
        PositionIs(fields.value.text, ctx);
      }
      if WalkValue(fields.key, fields.value, ctx, depth) == Walk(fields.value, ctx, depth) {
        WalkReplaces(fields.value, ctx, depth);
      }
      WalkReplacesFields(fields.rest, ctx, depth);
    }
  }

  // ---------------------------------------------------------------- when it succeeds

  /** Every placeholder names an element of a list the build has. */
  predicate AllKnown(node: Json, ctx: Context) {
    match node
    case Array(items) => AllKnownItems(items, ctx)
    case Object(fields) => AllKnownFields(fields, ctx)
    case _ => true
  }

  predicate AllKnownItems(items: Items, ctx: Context) {
    items.Item? ==> AllKnown(items.head, ctx) && AllKnownItems(items.tail, ctx)
  }

  predicate AllKnownFields(fields: Fields, ctx: Context) {
    fields.Field? ==>
      && (fields.key == "int" && fields.value.Text? ==> IsKnown(fields.value.text, ctx))
      && AllKnown(fields.value, ctx) && AllKnownFields(fields.rest, ctx)
  }

  predicate IsKnown(text: string, ctx: Context) {
    match Parse(text)
    case None => true
    case Some(InputIdx(ref)) => ref in ctx.inputs
    case Some(RefIdx(ref)) => ctx.references.Some? && ref in ctx.references.value
    case Some(WdrlIdx(c)) => ctx.withdrawals.Some? && c in ctx.withdrawals.value
  }

  /** No node lies deeper than the limit; with `spared`, placeholders may. */
  predicate Shallow(node: Json, depth: nat, spared: bool) {
    && depth <= MAX_WALK_DEPTH
    && match node
       case Array(items) => ShallowItems(items, depth + 1, spared)
       case Object(fields) => ShallowFields(fields, depth + 1, spared)
       case _ => true
  }

  predicate ShallowItems(items: Items, depth: nat, spared: bool) {
    items.Item? ==> Shallow(items.head, depth, spared) && ShallowItems(items.tail, depth, spared)
  }

  predicate ShallowFields(fields: Fields, depth: nat, spared: bool) {
    fields.Field? ==>
      && ((spared && IsPlaceholder(fields.key, fields.value)) || Shallow(fields.value, depth, spared))
      && ShallowFields(fields.rest, depth, spared)
  }

  lemma KnownIff(text: string, ctx: Context)
    ensures PositionOf(text, ctx).Done? <==> IsKnown(text, ctx)
  {
  }

  /** The walk succeeds exactly when every placeholder is known and nothing but placeholders lies too deep. */
  lemma {:induction false} WalkSucceedsIff(node: Json, ctx: Context, depth: nat)
    ensures Walk(node, ctx, depth).Done? <==> AllKnown(node, ctx) && Shallow(node, depth, true) 
    decreases node
  {
    match node
    case Array(items) => WalkSucceedsItems(items, ctx, depth + 1);
    case Object(fields) => WalkSucceedsFields(fields, ctx, depth + 1);
    case _ =>
  }

  lemma {:induction false} WalkSucceedsItems(items: Items, ctx: Context, depth: nat)
    ensures WalkItems(items, ctx, depth).Done? <==> AllKnownItems(items, ctx) && ShallowItems(items, depth, true)
    decreases items
  {
    if items.Item? {
      WalkSucceedsIff(items.head, ctx, depth);
      WalkSucceedsItems(items.tail, ctx, depth);
    }
  }

  lemma {:induction false} WalkSucceedsFields(fields: Fields, ctx: Context, depth: nat)
    ensures WalkFields(fields, ctx, depth).Done? <==> AllKnownFields(fields, ctx) && ShallowFields(fields, depth, true)
    decreases fields
  {
    hide PositionOf, Parse, IsKnown;
    if fields.Field? {
      if fields.key == "int" && fields.value.Text? {
        KnownIff(fields.value.text, ctx);
        if PositionOf(fields.value.text, ctx).Done? {
          PositionIs(fields.value.text, ctx);
        }
      }
      WalkSucceedsIff(fields.value, ctx, depth);
      WalkSucceedsFields(fields.rest, ctx, depth);
    }
  }

  // ---------------------------------------------------------------- walking again

  /** Data without placeholders passes through unchanged when nothing lies too deep. */
  lemma {:induction false} CleanUnchanged(node: Json, ctx: Context, depth: nat)
    requires Clean(node)
    ensures Walk(node, ctx, depth) == Done(node) <==> Shallow(node, depth, false)
    ensures Walk(node, ctx, depth).Done? ==> Walk(node, ctx, depth) == Done(node)
    decreases node
  {
    match node
    case Array(items) => CleanUnchangedItems(items, ctx, depth + 1);
    case Object(fields) => CleanUnchangedFields(fields, ctx, depth + 1);
    case _ =>
  }

  lemma {:induction false} CleanUnchangedItems(items: Items, ctx: Context, depth: nat)
    requires CleanItems(items)
    ensures WalkItems(items, ctx, depth) == Done(items) <==> ShallowItems(items, depth, false)
    ensures WalkItems(items, ctx, depth).Done? ==> WalkItems(items, ctx, depth) == Done(items)
    decreases items
  {
    if items.Item? {
      CleanUnchanged(items.head, ctx, depth);
      CleanUnchangedItems(items.tail, ctx, depth);
    }
  }

  lemma {:induction false} CleanUnchangedFields(fields: Fields, ctx: Context, depth: nat)
    requires CleanFields(fields)
    ensures WalkFields(fields, ctx, depth) == Done(fields) <==> ShallowFields(fields, depth, false)
    ensures WalkFields(fields, ctx, depth).Done? ==> WalkFields(fields, ctx, depth) == Done(fields)
    decreases fields
  {
    hide Parse;
    if fields.Field? {
      CleanUnchanged(fields.value, ctx, depth);
      CleanUnchangedFields(fields.rest, ctx, depth);
    }
  }

  /** Replacing keeps the shape, so a replaced number lies as deep as its placeholder did. */
  lemma {:induction false} ReplacedShallow(before: Json, after: Json, ctx: Context, depth: nat)
    requires Replaced(before, after, ctx)
    ensures Shallow(after, depth, false) == Shallow(before, depth, false)
    decreases before
  {
    match before
    case Array(items) => ReplacedShallowItems(items, after.items, ctx, depth + 1);
    case Object(fields) => ReplacedShallowFields(fields, after.fields, ctx, depth + 1);
    case _ =>
  }

  lemma {:induction false} ReplacedShallowItems(before: Items, after: Items, ctx: Context, depth: nat)
    requires ReplacedItems(before, after, ctx)
    ensures ShallowItems(after, depth, false) == ShallowItems(before, depth, false)
    decreases before
  {
    if before.Item? {
      ReplacedShallow(before.head, after.head, ctx, depth);
      ReplacedShallowItems(before.tail, after.tail, ctx, depth);
    }
  }

  lemma {:induction false} ReplacedShallowFields(before: Fields, after: Fields, ctx: Context, depth: nat)
    requires ReplacedFields(before, after, ctx)
    ensures ShallowFields(after, depth, false) == ShallowFields(before, depth, false)
    decreases before
  {
    hide Parse, IsPosition;
    if before.Field? {
      if !IsPlaceholder(before.key, before.value) {
        ReplacedShallow(before.value, after.value, ctx, depth);
      }
      ReplacedShallowFields(before.rest, after.rest, ctx, depth);
    }
  }

  /**
   Resolving resolved data again, even against other lists, changes nothing exactly when no node of the data,
   placeholders included, lies beyond the depth limit.
   */
  lemma WalkAgainIff(node: Json, ctx: Context, other: Context, depth: nat)
    requires Walk(node, ctx, depth).Done?
    ensures Walk(Walk(node, ctx, depth).value, other, depth) == Done(Walk(node, ctx, depth).value) <==> Shallow(node, depth, false)
  {
    var r := Walk(node, ctx, depth).value;
    WalkReplaces(node, ctx, depth);
    CleanUnchanged(r, other, depth);
    ReplacedShallow(node, r, ctx, depth);
  }

  function Nested(n: nat, inner: Json): Json {
    if n == 0 then inner else Array(Item(Nested(n - 1, inner), Nil))
  }

  /** A placeholder just beyond the limit is resolved once; the number that replaces it is then too deep. */
  lemma {:induction false} DeepPlaceholderResolvesOnce(n: nat, text: string, ctx: Context, depth: nat)
    requires depth + n == MAX_WALK_DEPTH && PositionOf(text, ctx).Done? && PositionOf(text, ctx).value.Some?
    ensures
      var number := Number(PositionOf(text, ctx).value.value);
      var resolved := Nested(n, Object(Field("int", number, End)));
      && Walk(Nested(n, Object(Field("int", Text(text), End))), ctx, depth) == Done(resolved)
      && Walk(resolved, ctx, depth) == Failed(TooDeep)
    decreases n
  {
    hide PositionOf;
    var before, after := Field("int", Text(text), End), Field("int", Number(PositionOf(text, ctx).value.value), End);
    if n == 0 {
      assert WalkFields(End, ctx, depth + 1) == Done(End);
      assert WalkFields(before, ctx, depth + 1) == Done(after);
      assert Walk(after.value, ctx, depth + 1) == Failed(TooDeep);
      assert WalkValue("int", after.value, ctx, depth + 1) == Failed(TooDeep);
      assert WalkFields(after, ctx, depth + 1) == Failed(TooDeep);
    } else {
      DeepPlaceholderResolvesOnce(n - 1, text, ctx, depth + 1);
      assert WalkItems(Nil, ctx, depth + 1) == Done(Nil);
      assert WalkItems(Item(Nested(n - 1, Object(before)), Nil), ctx, depth + 1) == Done(Item(Nested(n - 1, Object(after)), Nil));
    }
  }
}
