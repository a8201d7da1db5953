/** The limits a request's Plutus data passes before its placeholders are resolved. */
module PlutusLimits {
  import opened Options
  import opened Placeholders

  const PLUTUS_DATA_MAX_DEPTH := 64
  const MAX_KEYS := 100
  const MAX_ARRAY_LENGTH := 1000
  const MAX_STRING_LENGTH := 65536

  datatype Excess = Depth | Keys | Length | Characters

  function ItemCount(items: Items): nat {
    if items.Nil? then 0 else 1 + ItemCount(items.tail)
  }

  function FieldCount(fields: Fields): nat {
    if fields.End? then 0 else 1 + FieldCount(fields.rest)
  }

  /** The first limit a value exceeds, None when it keeps them all. */
  function CheckComplexity(value: Json, depth: nat): Option<Excess>
    decreases value, 0
  {
    if depth > PLUTUS_DATA_MAX_DEPTH then Some(Depth)
    else match value
      case Text(text) => if |text| > MAX_STRING_LENGTH then Some(Characters) else None
      case Array(items) => if ItemCount(items) > MAX_ARRAY_LENGTH then Some(Length) else CheckItems(items, depth + 1)
      case Object(fields) => if FieldCount(fields) > MAX_KEYS then Some(Keys) else CheckFields(fields, depth + 1)
      case _ => None
  }

  function CheckItems(items: Items, depth: nat): Option<Excess>
    decreases items, 0
  {
    if items.Nil? then None
    else
      match CheckComplexity(items.head, depth)
      case Some(e) => Some(e)
      case None => CheckItems(items.tail, depth)
  }

  function CheckFields(fields: Fields, depth: nat): Option<Excess>
    decreases fields, 0
  {
    if fields.End? then None
    else
      match CheckComplexity(fields.value, depth)
      case Some(e) => Some(e)
      case None => CheckFields(fields.rest, depth)
  }

  /** What a request may carry. */
  predicate IsAccepted(value: Json) {
    CheckComplexity(value, 0).None?
  }

  /** No text, array or object anywhere in the value is too large. */
  predicate IsSmall(value: Json) {
    match value
    case Text(text) => |text| <= MAX_STRING_LENGTH
    case Array(items) => ItemCount(items) <= MAX_ARRAY_LENGTH && SmallItems(items)
    case Object(fields) => FieldCount(fields) <= MAX_KEYS && SmallFields(fields)
    case _ => true
  }

  predicate SmallItems(items: Items) {
    items.Item? ==> IsSmall(items.head) && SmallItems(items.tail)
  }

  predicate SmallFields(fields: Fields) {
    fields.Field? ==> IsSmall(fields.value) && SmallFields(fields.rest)
  }

  /** The check passes exactly the values that are small and hold no node beyond the depth limit, leaves included. */
  lemma {:induction false} CheckPassesIff(value: Json, depth: nat)
    ensures CheckComplexity(value, depth).None? <==> Shallow(value, depth, false) && IsSmall(value)
    decreases value
  {
    match value
    case Array(items) => CheckItemsIff(items, depth + 1);
    case Object(fields) => CheckFieldsIff(fields, depth + 1);
    case _ =>
  }

  lemma {:induction false} CheckItemsIff(items: Items, depth: nat)
    ensures CheckItems(items, depth).None? <==> ShallowItems(items, depth, false) && SmallItems(items)
    decreases items
  {
    if items.Item? {
      CheckPassesIff(items.head, depth);
      CheckItemsIff(items.tail, depth);
    }
  }

  lemma {:induction false} CheckFieldsIff(fields: Fields, depth: nat)
    ensures CheckFields(fields, depth).None? <==> ShallowFields(fields, depth, false) && SmallFields(fields)
    decreases fields
  {
    if fields.Field? {
      CheckPassesIff(fields.value, depth);
      CheckFieldsIff(fields.rest, depth);
    }
  }

  /** A value without deep nodes has none when placeholders are spared either. */
  lemma {:induction false} ShallowSpared(node: Json, depth: nat)
    requires Shallow(node, depth, false)
    ensures Shallow(node, depth, true)
    decreases node
  {
    match node
    case Array(items) => ShallowSparedItems(items, depth + 1);
    case Object(fields) => ShallowSparedFields(fields, depth + 1);
    case _ =>
  }

  lemma {:induction false} ShallowSparedItems(items: Items, depth: nat)
    requires ShallowItems(items, depth, false)
    ensures ShallowItems(items, depth, true)
    decreases items
  {
    if items.Item? {
      ShallowSpared(items.head, depth);
      ShallowSparedItems(items.tail, depth);
    }
  }

  lemma {:induction false} ShallowSparedFields(fields: Fields, depth: nat)
    requires ShallowFields(fields, depth, false)
    ensures ShallowFields(fields, depth, true)
    decreases fields
  {
    hide IsPlaceholder;
    if fields.Field? {
      ShallowSpared(fields.value, depth);
      ShallowSparedFields(fields.rest, depth);
    }
  }

  /** Accepted data resolves exactly when every placeholder is known: the depth limit of the walk never refuses it. */
  lemma AcceptedResolvesIff(value: Json, ctx: Context)
    requires IsAccepted(value)
    ensures Walk(value, ctx, 0).Done? <==> AllKnown(value, ctx)
  {
    CheckPassesIff(value, 0);
    ShallowSpared(value, 0);
    WalkSucceedsIff(value, ctx, 0);
  }

  /** Resolving accepted data again, even against other lists, changes nothing. */
  lemma AcceptedResolvesOnce(value: Json, ctx: Context, other: Context)
    requires IsAccepted(value) && Walk(value, ctx, 0).Done?
    ensures Walk(Walk(value, ctx, 0).value, other, 0) == Done(Walk(value, ctx, 0).value)
  {
    CheckPassesIff(value, 0);
    WalkAgainIff(value, ctx, other, 0);
  }

  /** A value whose placeholder lies just beyond the limit never passes the check. */
  lemma {:induction false} DeepPlaceholderRefused(n: nat, text: string, depth: nat)
    requires depth + n == PLUTUS_DATA_MAX_DEPTH
    ensures CheckComplexity(Nested(n, Object(Field("int", Text(text), End))), depth) == Some(Depth)
    decreases n
  {
    if n == 0 {
      var fields := Field("int", Text(text), End);
      assert FieldCount(End) == 0 && FieldCount(fields) == 1;
      assert CheckComplexity(Text(text), depth + 1) == Some(Depth);
      assert CheckFields(fields, depth + 1) == Some(Depth);
    } else {
      DeepPlaceholderRefused(n - 1, text, depth + 1);
      var items := Item(Nested(n - 1, Object(Field("int", Text(text), End))), Nil);
      assert ItemCount(Nil) == 0 && ItemCount(items) == 1;
      assert CheckItems(items, depth + 1) == Some(Depth);
    }
  }
}
