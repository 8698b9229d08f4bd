/** Values every component shares: optional fields and the JSON values the runtime
    stores as text (`argumentsJson`, `resultJson`, `transcriptJson`). */
module Common {

  datatype Option<+T> = None | Some(value: T)

  /** A parsed JSON value. An object keeps its members in the order they were written. */
  datatype Json =
    | Null
    | Bool(b: bool)
    | Num(n: int)
    | Str(s: string)
    | Arr(items: seq<Json>)
    | Obj(members: seq<Member>)

  datatype Member = Member(key: string, value: Json)

  /** Length of the serialised form, separators and quotes included. */
  function JsonChars(j: Json): nat
    decreases j
  {
    match j
    case Null => 4
    case Bool(b) => if b then 4 else 5
    case Num(n) => NumChars(n)
    case Str(s) => 2 + |s|
    case Arr(items) => if items == [] then 2 else 1 + ItemsChars(items)
    case Obj(members) => if members == [] then 2 else 1 + MembersChars(members)
  }

  function ItemsChars(items: seq<Json>): nat
    decreases items
  {
    if items == [] then 0 else JsonChars(items[0]) + 1 + ItemsChars(items[1..])
  }

  function MembersChars(members: seq<Member>): nat
    decreases members
  {
    if members == [] then 0
    else |members[0].key| + 3 + JsonChars(members[0].value) + 1 + MembersChars(members[1..])
  }

  function NumChars(n: int): nat
    decreases if n < 0 then 1 - n else n
  {
    if n < 0 then 1 + NumChars(-n) else if n < 10 then 1 else 1 + NumChars(n / 10)
  }

  lemma {:induction false} ItemsAddUp(a: seq<Json>, b: seq<Json>)
    ensures ItemsChars(a + b) == ItemsChars(a) + ItemsChars(b)
  {
    if a == [] {
      assert a + b == b;
    } else {
      assert (a + b)[1..] == a[1..] + b;
      ItemsAddUp(a[1..], b);
    }
  }

  lemma {:induction false} MembersAddUp(a: seq<Member>, b: seq<Member>)
    ensures MembersChars(a + b) == MembersChars(a) + MembersChars(b)
  {
    if a == [] {
      assert a + b == b;
    } else {
      assert (a + b)[1..] == a[1..] + b;
      MembersAddUp(a[1..], b);
    }
  }

  /** A value's size is that of its parts and the marks around them: quotes, brackets, colons and commas,
      the digits of a number and its sign, the letters of a word. */
  lemma SizesAddUp(s: string, more: string, a: seq<Json>, b: seq<Json>, m: seq<Member>, n: seq<Member>, x: Json, digit: int, number: int)
    requires 0 <= digit < 10 && number > 0
    ensures JsonChars(Str([])) == 2 && JsonChars(Str(s + more)) == JsonChars(Str(s)) + |more|
    ensures JsonChars(Arr([])) == 2 && JsonChars(Arr([x])) == JsonChars(x) + 2
            && (a != [] && b != [] ==> JsonChars(Arr(a + b)) == JsonChars(Arr(a)) + JsonChars(Arr(b)) - 1)
    ensures JsonChars(Obj([])) == 2 && JsonChars(Obj([Member(s, x)])) == |s| + JsonChars(x) + 5
            && (m != [] && n != [] ==> JsonChars(Obj(m + n)) == JsonChars(Obj(m)) + JsonChars(Obj(n)) - 1)
    ensures JsonChars(Num(digit)) == 1 && JsonChars(Num(10 * number + digit)) == JsonChars(Num(number)) + 1
            && JsonChars(Num(-number)) == JsonChars(Num(number)) + 1
    ensures JsonChars(Null) == 4 && JsonChars(Bool(true)) == 4 && JsonChars(Bool(false)) == 5
  {
    ItemsAddUp(a, b);
    MembersAddUp(m, n);
    assert [x][1..] == [] && [Member(s, x)][1..] == [];
    assert (10 * number + digit) / 10 == number;
  }
}
