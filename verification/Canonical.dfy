/** JSON values and their canonical text: members sorted by the UTF-16 code units of their keys. */
module Canonical {
  import opened Text

  datatype Member = Member(key: string, value: Json)

  // A value as the host holds it: members in insertion order.
  datatype Json =
    | JNull
    | JBool(b: bool)
    | JNum(n: real)
    | JStr(s: string)
    | JArr(items: seq<Json>)
    | JObj(members: seq<Member>)

  // The numbers the host can represent, and how it writes them.
  datatype Numerals = Numerals(finite: real -> bool, show: real -> string)

  // The characters of a number's text.
  predicate NumberChar(c: char) { IsDigit(c) || c == '-' || c == '+' || c == '.' || c == 'e' }

  // Different numbers have different texts, made of digits, signs, a point and an exponent.
  ghost predicate NumeralLaw(num: Numerals) {
    && (forall x: real :: num.finite(x) ==>
          num.show(x) != "" && (IsDigit(num.show(x)[0]) || num.show(x)[0] == '-')
          && forall i :: 0 <= i < |num.show(x)| ==> NumberChar(num.show(x)[i]))
    && (forall x: real, y: real :: num.finite(x) && num.finite(y) && num.show(x) == num.show(y) ==> x == y)
  }

  predicate DistinctKeys(ms: seq<Member>) {
    forall i, j :: 0 <= i < j < |ms| ==> ms[i].key != ms[j].key
  }

  // A value the host can hold: representable numbers, no repeated key.
  predicate Proper(num: Numerals, v: Json) {
    match v
    case JNum(n) => num.finite(n)
    case JArr(items) => forall i :: 0 <= i < |items| ==> Proper(num, items[i])
    case JObj(ms) => DistinctKeys(ms) && forall i :: 0 <= i < |ms| ==> Proper(num, ms[i].value)
    case _ => true
  }

  ghost predicate ProperMembers(num: Numerals, ms: seq<Member>) {
    DistinctKeys(ms) && forall i :: 0 <= i < |ms| ==> Proper(num, ms[i].value)
  }

  function Size(v: Json): (n: nat)
    ensures n > 0
  {
    match v
    case JArr(items) => 1 + ItemsSize(items)
    case JObj(ms) => 1 + MembersSize(ms)
    case _ => 1
  }

  function ItemsSize(items: seq<Json>): nat {
    if items == [] then 0 else Size(items[0]) + ItemsSize(items[1..])
  }

  function MembersSize(ms: seq<Member>): nat {
    if ms == [] then 0 else Size(ms[0].value) + MembersSize(ms[1..])
  }

  // ----- The order of keys -----

  // Orders characters as their UTF-16 code units: surrogate pairs come before U+E000.
  function Rank(c: char): (r: nat) {
    var k := c as int;
    if k < 0xD800 then k
    else if k < 0x10000 then k + 0x100000
    else k - 0x10000 + 0xD800
  }

  predicate Precedes(a: string, b: string) {
    if b == "" then false
    else if a == "" then true
    else if a[0] == b[0] then Precedes(a[1..], b[1..])
    else Rank(a[0]) < Rank(b[0])
  }

  predicate Sorted(ms: seq<Member>) {
    forall i, j :: 0 <= i < j < |ms| ==> Precedes(ms[i].key, ms[j].key)
  }

  function Insert(m: Member, ms: seq<Member>): (r: seq<Member>)
    ensures MembersSize(r) == Size(m.value) + MembersSize(ms)
  {
    if ms == [] || Precedes(m.key, ms[0].key) then [m] + ms
    else
      assert ([ms[0]] + Insert(m, ms[1..]))[1..] == Insert(m, ms[1..]);
      [ms[0]] + Insert(m, ms[1..])
  }

  // `Object.keys(obj).sort()`, with the values along.
  function SortMembers(ms: seq<Member>): (r: seq<Member>)
    ensures MembersSize(r) == MembersSize(ms)
  {
    if ms == [] then [] else Insert(ms[0], SortMembers(ms[1..]))
  }

  // ----- Canonical text -----

  // `canonicalize`
  function Canon(num: Numerals, v: Json): string
    decreases Size(v), 0
  {
    match v
    case JNull => "null"
    case JBool(b) => if b then "true" else "false"
    case JNum(n) => num.show(n)
    case JStr(s) => Quote(s)
    case JArr(items) => "[" + CanonItems(num, items) + "]"
    case JObj(ms) => "{" + CanonMembers(num, SortMembers(ms)) + "}"
  }

  function CanonItems(num: Numerals, items: seq<Json>): string
    decreases ItemsSize(items), 1
  {
    if items == [] then ""
    else if |items| == 1 then Canon(num, items[0])
    else Canon(num, items[0]) + "," + CanonItems(num, items[1..])
  }

  function CanonMember(num: Numerals, m: Member): string
    decreases Size(m.value), 1
  {
    Quote(m.key) + ":" + Canon(num, m.value)
  }

  function CanonMembers(num: Numerals, ms: seq<Member>): string
    decreases MembersSize(ms), 2
  {
    if ms == [] then ""
    else if |ms| == 1 then CanonMember(num, ms[0])
    else CanonMember(num, ms[0]) + "," + CanonMembers(num, ms[1..])
  }

  // ----- The value that is meant -----

  // JSON values with unordered members.
  datatype Value =
    | VNull
    | VBool(b: bool)
    | VNum(n: real)
    | VStr(s: string)
    | VArr(items: seq<Value>)
    | VObj(members: map<string, Value>)

  function Denote(v: Json): Value {
    match v
    case JNull => VNull
    case JBool(b) => VBool(b)
    case JNum(n) => VNum(n)
    case JStr(s) => VStr(s)
    case JArr(items) => VArr(DenoteItems(items))
    case JObj(ms) => VObj(DenoteMembers(ms))
  }

  function DenoteItems(items: seq<Json>): seq<Value> {
    if items == [] then [] else [Denote(items[0])] + DenoteItems(items[1..])
  }

  function DenoteMembers(ms: seq<Member>): map<string, Value> {
    if ms == [] then map[] else DenoteMembers(ms[1..])[ms[0].key := Denote(ms[0].value)]
  }
}
