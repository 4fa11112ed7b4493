/** The field validator that runs before every insert and update
    (src/models/schemas.js): per-table rule lists, the UUID syntax, and
    `validate`, which reports the first field that breaks its rule. */
module Schemas {
  import opened Values
  import opened Strings

  datatype FieldType =
    | StringType | TextType | NumberType | NumericType | BooleanType
    | UuidType | EnumType | DateType | TimestampType

  /** One entry of a table's schema. `allowNull` is None when the rule does
      not mention it; `values` is the enum's list when the rule has one. */
  datatype Rule = Rule(
    key: string,
    kind: FieldType,
    required: bool,
    allowNull: Option<bool>,
    values: Option<seq<string>>)

  type Schema = seq<Rule>

  datatype ErrorKind =
    | IsRequired
    | CannotBeNull
    | NotString
    | NotNumber
    | NotNumeric
    | NotBoolean
    | NotUuid
    | NotOneOf(allowed: seq<string>)
    | NotDateTime

  /** The Error `validate` throws: the table, the field and what was wrong. */
  datatype FieldError = FieldError(table: string, key: string, kind: ErrorKind)
  {
    /** The text of the thrown Error. */
    function Message(): string
    {
      var field := table + "." + key;
      match kind
      case IsRequired => field + " is required"
      case CannotBeNull => field + " cannot be null"
      case NotString => field + " must be a string"
      case NotNumber => field + " must be a number"
      case NotNumeric => field + " must be numeric"
      case NotBoolean => field + " must be boolean"
      case NotUuid => field + " must be a UUID"
      case NotOneOf(allowed) => field + " must be one of: " + Join(allowed, ',')
      case NotDateTime => field + " must be a valid date/time"
    }
  }

  // ---------------------------------------------------------------- UUID syntax

  predicate IsHexDigit(ch: char)
  {
    ('0' <= ch <= '9') || ('a' <= ch <= 'f') || ('A' <= ch <= 'F')
  }

  predicate IsHexGroup(s: string, n: nat)
  {
    |s| == n && forall i :: 0 <= i < |s| ==> IsHexDigit(s[i])
  }

  predicate IsDashPosition(i: int)
  {
    i == 8 || i == 13 || i == 18 || i == 23
  }

  /** `/^[0-9a-f]{8}-[0-9a-f]{4}-[0-9a-f]{4}-[0-9a-f]{4}-[0-9a-f]{12}$/i.test(s)`,
      checked position by position. */
  predicate IsUuid(s: string)
  {
    |s| == 36 &&
    forall i :: 0 <= i < 36 ==> if IsDashPosition(i) then s[i] == '-' else IsHexDigit(s[i])
  }

  /** The 8-4-4-4-12 layout, written out from its groups. */
  function FormatUuid(a: string, b: string, c: string, d: string, e: string): string
  {
    a + "-" + b + "-" + c + "-" + d + "-" + e
  }

  /** Five hex groups of the right lengths joined by dashes form a UUID. */
  lemma FormatIsUuid(a: string, b: string, c: string, d: string, e: string)
    requires IsHexGroup(a, 8) && IsHexGroup(b, 4) && IsHexGroup(c, 4) && IsHexGroup(d, 4) && IsHexGroup(e, 12)
    ensures IsUuid(FormatUuid(a, b, c, d, e))
  {
    var s := FormatUuid(a, b, c, d, e);
    forall i | 0 <= i < 36 ensures if IsDashPosition(i) then s[i] == '-' else IsHexDigit(s[i]) {
      if i < 8 { assert s[i] == a[i]; }
      else if 8 < i < 13 { assert s[i] == b[i - 9]; }
      else if 13 < i < 18 { assert s[i] == c[i - 14]; }
      else if 18 < i < 23 { assert s[i] == d[i - 19]; }
      else if 23 < i { assert s[i] == e[i - 24]; }
    }
  }

  /** Every UUID is five hex groups of lengths 8, 4, 4, 4 and 12 joined by dashes. */
  lemma UuidGroups(s: string)
    requires IsUuid(s)
    ensures IsHexGroup(s[..8], 8) && IsHexGroup(s[9..13], 4) && IsHexGroup(s[14..18], 4)
    ensures IsHexGroup(s[19..23], 4) && IsHexGroup(s[24..], 12)
    ensures s == FormatUuid(s[..8], s[9..13], s[14..18], s[19..23], s[24..])
  {
    assert forall i :: 0 <= i < 8 ==> s[..8][i] == s[i];
    assert forall i :: 0 <= i < 4 ==> s[9..13][i] == s[i + 9];
    assert forall i :: 0 <= i < 4 ==> s[14..18][i] == s[i + 14];
    assert forall i :: 0 <= i < 4 ==> s[19..23][i] == s[i + 19];
    assert forall i :: 0 <= i < 12 ==> s[24..][i] == s[i + 24];
    assert !IsDashPosition(9) && !IsDashPosition(14) && !IsDashPosition(19) && !IsDashPosition(24);
    var t := FormatUuid(s[..8], s[9..13], s[14..18], s[19..23], s[24..]);
    assert |t| == 36;
    forall i | 0 <= i < 36 ensures t[i] == s[i] {
      if i < 8 { assert t[i] == s[..8][i]; }
      else if 8 < i < 13 { assert t[i] == s[9..13][i - 9]; }
      else if 13 < i < 18 { assert t[i] == s[14..18][i - 14]; }
      else if 18 < i < 23 { assert t[i] == s[19..23][i - 19]; }
      else if 23 < i { assert t[i] == s[24..][i - 24]; }
      else { assert IsDashPosition(i); }
    }
  }

  /** The `i` flag: a string is a UUID exactly when its lower-case form is. */
  lemma UuidIgnoresCase(s: string)
    ensures IsUuid(s) <==> IsUuid(LowerAsciiString(s))
  {
    var t := LowerAsciiString(s);
    assert forall i :: 0 <= i < |s| ==> (IsHexDigit(s[i]) <==> IsHexDigit(t[i]));
    assert forall i :: 0 <= i < |s| ==> (s[i] == '-' <==> t[i] == '-');
  }

  // ---------------------------------------------------------------- rule tables

  function Required(key: string, kind: FieldType): Rule { Rule(key, kind, true, None, None) }
  function Nullable(key: string, kind: FieldType): Rule { Rule(key, kind, false, Some(true), None) }
  function EnumNotNull(key: string, values: seq<string>): Rule { Rule(key, EnumType, false, Some(false), Some(values)) }
  function EnumRequired(key: string, values: seq<string>): Rule { Rule(key, EnumType, true, None, Some(values)) }

  const PurchaseOrderStatuses: seq<string> := ["draft", "estimated", "ordered", "received", "cancelled"]
  const MovementTypes: seq<string> := ["sale", "restock", "return", "transfer", "adjustment"]

  const PurchaseOrdersSchema: Schema := [
    Required("supplier_id", UuidType), Required("branch_id", UuidType), Required("po_number", StringType),
    EnumRequired("status", PurchaseOrderStatuses), Nullable("total_cost", NumericType),
    Nullable("shipping_cost", NumericType), Nullable("tipping_cost", NumericType),
    Nullable("miscellaneous_cost", NumericType)]

  /** `schemas[table]`: the rules of the tables that have a schema, in
      declaration order; None for any other table. */
  function SchemaFor(table: string): Option<Schema>
  {
    match table
    case "branches" => Some([
      Required("branch_name", StringType), Nullable("address", TextType),
      Nullable("phone", StringType), Nullable("is_main", BooleanType)])
    case "sales_channels" => Some([Required("channel_name", StringType)])
    case "users" => Some([
      Nullable("full_name", StringType), Nullable("phone", StringType), Nullable("email", StringType),
      Nullable("password_hash", TextType), EnumNotNull("role", ["admin", "staff", "cashier"]),
      Nullable("branch_id", UuidType), Nullable("is_active", BooleanType)])
    case "customers" => Some([
      Required("full_name", StringType), Required("phone", StringType), Nullable("email", StringType),
      Nullable("address", TextType), EnumNotNull("customer_type", ["online", "walk-in"])])
    case "suppliers" => Some([
      Nullable("supplier_name", StringType), Required("phone", StringType), Nullable("email", StringType),
      Nullable("address", TextType), EnumNotNull("supplier_type", ["online", "physical", "both"]),
      Nullable("notes", TextType)])
    case "categories" => Some([Nullable("category_name", StringType), Nullable("parent_id", UuidType)])
    case "products" => Some([
      Nullable("product_name", StringType), Nullable("description", TextType),
      Nullable("photo_url", StringType), Nullable("category_id", UuidType), Nullable("brand", StringType),
      EnumNotNull("status", ["active", "archived"])])
    case "product_variants" => Some([
      Required("product_id", UuidType), Nullable("sku", StringType), Nullable("class", StringType),
      Nullable("product_type", StringType), Nullable("brand", StringType), Nullable("size", StringType),
      Nullable("color", StringType), Nullable("is_active", BooleanType), Nullable("price", NumericType),
      Nullable("cost_price", NumericType)])
    case "inventories" => Some([
      Required("branch_id", UuidType), Required("product_variant_id", UuidType),
      Nullable("quantity_on_hand", NumberType), Nullable("reorder_level", NumberType)])
    case "inventory_movements" => Some([
      Nullable("branch_id", UuidType), Nullable("product_variant_id", UuidType),
      EnumRequired("movement_type", MovementTypes), Required("quantity", NumberType),
      Nullable("reference_type", StringType), Nullable("reference_id", UuidType)])
    case "orders" => Some([
      Nullable("order_number", StringType), Nullable("customer_id", UuidType), Nullable("branch_id", UuidType),
      Nullable("sales_channel_id", UuidType),
      EnumNotNull("order_status", ["pending", "partially_paid", "paid", "packed", "shipped", "completed", "cancelled", "returned"]),
      Nullable("total_amount", NumericType)])
    case "order_items" => Some([
      Required("order_id", UuidType), Nullable("product_variant_id", UuidType), Required("quantity", NumberType),
      Nullable("unit_price", NumericType), Nullable("subtotal", NumericType)])
    case "payments" => Some([
      Required("order_id", UuidType), EnumRequired("payment_method", ["cash", "gcash", "bank_transfer", "card", "cod"]),
      Required("amount", NumericType), Nullable("received_by", UuidType), Nullable("payment_date", TimestampType)])
    case "returns" => Some([
      Required("order_id", UuidType), Nullable("branch_id", UuidType), Nullable("reason", TextType),
      EnumNotNull("return_status", ["pending", "approved", "rejected"])])
    case "return_items" => Some([
      Required("return_id", UuidType), Nullable("product_variant_id", UuidType), Required("quantity", NumberType)])
    case "purchase_orders" => Some(PurchaseOrdersSchema)
    case "purchase_order_items" => Some([
      Required("purchase_order_id", UuidType), Nullable("product_variant_id", UuidType),
      Required("quantity", NumberType), Nullable("cost_price", NumericType)])
    case "expenses" => Some([
      Nullable("branch_id", UuidType), Nullable("expense_type", StringType), Nullable("description", TextType),
      Nullable("amount", NumericType), Nullable("expense_date", DateType)])
    case _ => None
  }

  // ---------------------------------------------------------------- validate

  /** The check of one field's value against its rule, in `validate`'s order:
      the required check, undefined, null, then the type switch. */
  function CheckField(rule: Rule, val: Value, requireAll: bool, host: Host): (e: Option<ErrorKind>)
    ensures e == Some(IsRequired) ==> requireAll && rule.required
    ensures e == Some(CannotBeNull) ==> val == Null && rule.allowNull == Some(false)
    ensures val == Undefined && !(requireAll && rule.required) ==> e.None?
  {
    if requireAll && rule.required && (val == Undefined || val == Null || val == Str("")) then Some(IsRequired)
    else if val == Undefined then None
    else if val == Null then (if rule.allowNull == Some(false) then Some(CannotBeNull) else None)
    else match rule.kind
      case StringType => if val.Str? then None else Some(NotString)
      case TextType => if val.Str? then None else Some(NotString)
      case NumberType => if val.Num? then None else Some(NotNumber)
      case NumericType =>
        if val.Num? || val.NaN? then None
        else if val.Str? && Trim(val.s) != "" && host.isNumberText(val.s) then None
        else Some(NotNumeric)
      case BooleanType => if val.Bool? then None else Some(NotBoolean)
      case UuidType => if val.Str? && IsUuid(val.s) then None else Some(NotUuid)
      case EnumType =>
        if rule.values.None? then None
        else if val.Str? && val.s in rule.values.value then None
        else Some(NotOneOf(rule.values.value))
      case DateType => if val.Date? || (val.Str? && host.isDateText(val.s)) then None else Some(NotDateTime)
      case TimestampType => if val.Date? || (val.Str? && host.isDateText(val.s)) then None else Some(NotDateTime)
  }

  /** The check of `data[rule.key]`. */
  function Check(rule: Rule, data: Record, requireAll: bool, host: Host): Option<ErrorKind>
  {
    CheckField(rule, Get(data, rule.key), requireAll, host)
  }

  /** `r` is the first failure of `rules`, as FirstError promises. */
  ghost predicate IsFirstError(table: string, rules: Schema, data: Record, requireAll: bool, host: Host, r: Option<FieldError>)
  {
    && (r.None? <==> forall i :: 0 <= i < |rules| ==> Check(rules[i], data, requireAll, host).None?)
    && (r.Some? ==> exists i :: (0 <= i < |rules|
         && Check(rules[i], data, requireAll, host).Some?
         && r.value == FieldError(table, rules[i].key, Check(rules[i], data, requireAll, host).value)
         && forall j :: 0 <= j < i ==> Check(rules[j], data, requireAll, host).None?))
  }

  /** Behind a rule that passes, the first failure of the rest is the first
      failure of all. */
  lemma PassingHead(table: string, rules: Schema, data: Record, requireAll: bool, host: Host, r: Option<FieldError>)
    requires rules != [] && Check(rules[0], data, requireAll, host).None?
    requires IsFirstError(table, rules[1..], data, requireAll, host, r)
    ensures IsFirstError(table, rules, data, requireAll, host, r)
  {
    assert forall i :: 1 <= i < |rules| ==> rules[i] == rules[1..][i - 1];
    if r.Some? {
      var i :| 0 <= i < |rules[1..]| && Check(rules[1..][i], data, requireAll, host).Some?
        && r.value == FieldError(table, rules[1..][i].key, Check(rules[1..][i], data, requireAll, host).value)
        && forall j :: 0 <= j < i ==> Check(rules[1..][j], data, requireAll, host).None?;
      assert rules[i + 1] == rules[1..][i];
    }
  }

  /** The `forEach` over the schema: the first rule, in declaration order,
      whose check fails, or None when all pass. */
  function FirstError(table: string, rules: Schema, data: Record, requireAll: bool, host: Host): (r: Option<FieldError>)
    ensures r.None? <==> forall i :: 0 <= i < |rules| ==> Check(rules[i], data, requireAll, host).None?
    ensures r.Some? ==> exists i :: (0 <= i < |rules|
      && Check(rules[i], data, requireAll, host).Some?
      && r.value == FieldError(table, rules[i].key, Check(rules[i], data, requireAll, host).value)
      && forall j :: 0 <= j < i ==> Check(rules[j], data, requireAll, host).None?)
  {
    if rules == [] then None
    else match Check(rules[0], data, requireAll, host)
      case Some(kind) => Some(FieldError(table, rules[0].key, kind))
      case None =>
        var r := FirstError(table, rules[1..], data, requireAll, host);
        PassingHead(table, rules, data, requireAll, host, r);
        r
  }

  /** `validate(table, data, { requireAll })`: None when it returns, the
      error when it throws. A table without a schema is not checked. */
  function Validate(table: string, data: Record, requireAll: bool, host: Host): (r: Option<FieldError>)
    ensures SchemaFor(table).None? ==> r.None?
    ensures r.Some? ==> r.value.table == table
  {
    match SchemaFor(table)
    case None => None
    case Some(rules) => FirstError(table, rules, data, requireAll, host)
  }

  // ---------------------------------------------------------------- what validate promises

  /** Only the keys the schema declares are looked at: two payloads that agree
      on them validate alike, whatever other keys they carry. */
  lemma {:induction false} ExtraKeysIgnored(table: string, rules: Schema, d1: Record, d2: Record, requireAll: bool, host: Host)
    requires forall i :: 0 <= i < |rules| ==> Get(d1, rules[i].key) == Get(d2, rules[i].key)
    ensures FirstError(table, rules, d1, requireAll, host) == FirstError(table, rules, d2, requireAll, host)
  {
    if rules != [] {
      assert Get(d1, rules[0].key) == Get(d2, rules[0].key);
      assert forall i :: 0 <= i < |rules[1..]| ==> rules[1..][i] == rules[i + 1];
      ExtraKeysIgnored(table, rules[1..], d1, d2, requireAll, host);
    }
  }

  /** With `requireAll`, a required field that is missing, null or '' fails
      with "is required", before any other check. */
  lemma RequiredFieldMissing(rule: Rule, val: Value, host: Host)
    requires rule.required
    requires val == Undefined || val == Null || val == Str("")
    ensures CheckField(rule, val, true, host) == Some(IsRequired)
  {
  }

  /** Outside that case an undefined value always passes, and null fails
      exactly when the rule says `allowNull: false`, with no type check. */
  lemma UndefinedAndNull(rule: Rule, requireAll: bool, host: Host)
    requires !(requireAll && rule.required)
    ensures CheckField(rule, Undefined, requireAll, host) == None
    ensures CheckField(rule, Null, requireAll, host) == if rule.allowNull == Some(false) then Some(CannotBeNull) else None
  {
  }

  /** A value that is neither undefined nor null (nor '' on a required field
      under `requireAll`) passes exactly when its type fits the rule. */
  lemma TypeChecks(rule: Rule, val: Value, requireAll: bool, host: Host)
    requires val != Undefined && val != Null
    requires !(requireAll && rule.required && val == Str(""))
    ensures rule.kind in {StringType, TextType} ==> (CheckField(rule, val, requireAll, host).None? <==> val.Str?)
    ensures rule.kind == NumberType ==> (CheckField(rule, val, requireAll, host).None? <==> val.Num?)
    ensures rule.kind == BooleanType ==> (CheckField(rule, val, requireAll, host).None? <==> val.Bool?)
    ensures rule.kind == NumericType ==> (CheckField(rule, val, requireAll, host).None? <==>
      (val.Num? || val.NaN? || (val.Str? && Trim(val.s) != "" && host.isNumberText(val.s))))
    ensures rule.kind == UuidType ==> (CheckField(rule, val, requireAll, host).None? <==> (val.Str? && IsUuid(val.s)))
    ensures rule.kind == EnumType ==> (CheckField(rule, val, requireAll, host).None? <==>
      (rule.values.None? || (val.Str? && val.s in rule.values.value)))
    ensures rule.kind in {DateType, TimestampType} ==> (CheckField(rule, val, requireAll, host).None? <==>
      (val.Date? || (val.Str? && host.isDateText(val.s))))
  {
  }

  lemma PurchaseOrdersSchemaFor()
    ensures SchemaFor("purchase_orders") == Some(PurchaseOrdersSchema)
  {
  }

  /** The first failing rule decides the error, whatever the later ones say. */
  lemma FirstFailureDecides(table: string, rules: Schema, data: Record, requireAll: bool, host: Host, n: nat)
    requires n < |rules| && Check(rules[n], data, requireAll, host).Some?
    requires forall j :: 0 <= j < n ==> Check(rules[j], data, requireAll, host).None?
    ensures FirstError(table, rules, data, requireAll, host)
      == Some(FieldError(table, rules[n].key, Check(rules[n], data, requireAll, host).value))
  {
    var r := FirstError(table, rules, data, requireAll, host);
    var i :| 0 <= i < |rules| && Check(rules[i], data, requireAll, host).Some?
      && r.value == FieldError(table, rules[i].key, Check(rules[i], data, requireAll, host).value)
      && forall j :: 0 <= j < i ==> Check(rules[j], data, requireAll, host).None?;
    assert i == n;
  }

  /** A purchase order status that is not one of the five is rejected, even on
      an update; `received` and the other four pass. */
  lemma PurchaseOrderStatusChecked(data: Record, host: Host)
    requires Get(data, "supplier_id") == Undefined && Get(data, "branch_id") == Undefined
    requires Get(data, "po_number") == Undefined
    requires Get(data, "status").Str?
    ensures Get(data, "status").s !in PurchaseOrderStatuses ==>
      Validate("purchase_orders", data, false, host)
        == Some(FieldError("purchase_orders", "status", NotOneOf(PurchaseOrderStatuses)))
  {
    PurchaseOrdersSchemaFor();
    var rules := PurchaseOrdersSchema;
    if Get(data, "status").s !in PurchaseOrderStatuses {
      assert Check(rules[3], data, false, host) == Some(NotOneOf(PurchaseOrderStatuses));
      assert forall j :: 0 <= j < 3 ==> Check(rules[j], data, false, host).None?;
      FirstFailureDecides("purchase_orders", rules, data, false, host, 3);
    }
  }
}
