/** The search for an include in a configuration (openclaw-plugin/src/codex-attestation.ts:256-269). */
module ConfigInclude {
  import opened JsonText
  import opened JsonValue

  function IncludeKey(): Text { Units("$include") }

  /** Some record, at any depth, has the key. */
  ghost predicate HasInclude(v: Value) {
    match v
    case Arr(items) => exists i :: 0 <= i < |items| && HasInclude(items[i])
    case Obj(entries) =>
      exists i :: 0 <= i < |entries| && (entries[i].key == Units("$include") || HasInclude(entries[i].value))
    case _ => false
  }

  function Size(v: Value): nat
    decreases v, 1
  {
    match v
    case Arr(items) => 1 + ItemsSize(v, items)
    case Obj(entries) => 1 + EntriesSize(v, entries)
    case _ => 1
  }

  function ItemsSize(ghost parent: Value, items: seq<Value>): nat
    requires forall i | 0 <= i < |items| :: items[i] < parent
    decreases parent, 0, |items|
  {
    if items == [] then 0
    else
      ItemsSize(parent, items[..|items| - 1]) + Size(items[|items| - 1])
  }

  function EntriesSize(ghost parent: Value, entries: seq<Member>): nat
    requires forall e | e in entries :: e.value < parent
    decreases parent, 0, |entries|
  {
    if entries == [] then 0
    else
      assert entries[|entries| - 1] in entries && forall e | e in entries[..|entries| - 1] :: e in entries;
      EntriesSize(parent, entries[..|entries| - 1]) + Size(entries[|entries| - 1].value)
  }

  /** The work on the stack. */
  function StackSize(stack: seq<Value>): nat {
    if stack == [] then 0 else StackSize(stack[..|stack| - 1]) + Size(stack[|stack| - 1])
  }

  ghost predicate AnyInclude(stack: seq<Value>) {
    exists i :: 0 <= i < |stack| && HasInclude(stack[i])
  }

  method PushItems(stack: seq<Value>, v: Value) returns (grown: seq<Value>)
    requires v.Arr?
    ensures grown == stack + v.items && StackSize(grown) == StackSize(stack) + Size(v) - 1
  {
    grown := stack;
    for i := 0 to |v.items|
      invariant grown == stack + v.items[..i]
      invariant StackSize(grown) == StackSize(stack) + ItemsSize(v, v.items[..i])
    {
      assert v.items[..i + 1][..i] == v.items[..i];
      ghost var before := grown;
      grown := grown + [v.items[i]];
      assert grown[..|grown| - 1] == before;
    }
    assert v.items[..|v.items|] == v.items;
  }

  function Values(entries: seq<Member>): (r: seq<Value>)
    ensures |r| == |entries|
  {
    seq(|entries|, i requires 0 <= i < |entries| => entries[i].value)
  }

  method PushValues(stack: seq<Value>, v: Value) returns (grown: seq<Value>)
    requires v.Obj?
    ensures grown == stack + Values(v.entries) && StackSize(grown) == StackSize(stack) + Size(v) - 1
  {
    grown := stack;
    for i := 0 to |v.entries|
      invariant grown == stack + Values(v.entries[..i])
      invariant StackSize(grown) == StackSize(stack) + EntriesSize(v, v.entries[..i])
    {
      assert v.entries[..i + 1][..i] == v.entries[..i];
      ghost var before := grown;
      grown := grown + [v.entries[i].value];
      assert grown[..|grown| - 1] == before;
    }
    assert v.entries[..|v.entries|] == v.entries;
  }

  method HasOwnKey(entries: seq<Member>, key: Text) returns (found: bool)
    ensures found <==> exists i :: 0 <= i < |entries| && entries[i].key == key
  {
    for i := 0 to |entries|
      invariant forall j | 0 <= j < i :: entries[j].key != key
    {
      if entries[i].key == key {
        return true;
      }
    }
    return false;
  }

  /** The search terminates, and finds an include exactly when some record has one. */
  method ContainsOwnConfigInclude(value: Value) returns (found: bool)
    ensures found <==> HasInclude(value)
  {
    var pending := [value];
    while |pending| > 0
      invariant AnyInclude(pending) <==> HasInclude(value)
      decreases StackSize(pending)
    {
      var current, rest := pending[|pending| - 1], pending[..|pending| - 1];
      PopInclude(pending);
      if current.Arr? {
        pending := PushItems(rest, current);
        PushedItems(rest, current);
      } else if current.Obj? {
        var own := HasOwnKey(current.entries, IncludeKey());
        if own {
          return true;
        }
        pending := PushValues(rest, current);
        PushedValues(rest, current);
      } else {
        pending := rest;
      }
    }
    return false;
  }

  lemma PopInclude(stack: seq<Value>)
    requires stack != []
    ensures AnyInclude(stack) <==> AnyInclude(stack[..|stack| - 1]) || HasInclude(stack[|stack| - 1])
  {
    hide HasInclude;
    var rest := stack[..|stack| - 1];
    assert forall i | 0 <= i < |rest| :: rest[i] == stack[i];
  }

  lemma AppendInclude(s: seq<Value>, t: seq<Value>)
    ensures AnyInclude(s + t) <==> AnyInclude(s) || AnyInclude(t)
  {
    hide HasInclude;
    assert forall i | 0 <= i < |s| :: (s + t)[i] == s[i];
    assert forall i | 0 <= i < |t| :: (s + t)[|s| + i] == t[i];
  }

  lemma PushedItems(stack: seq<Value>, v: Value)
    requires v.Arr?
    ensures AnyInclude(stack + v.items) <==> AnyInclude(stack) || HasInclude(v)
  {
    AppendInclude(stack, v.items);
  }

  lemma PushedValues(stack: seq<Value>, v: Value)
    requires v.Obj? && forall i | 0 <= i < |v.entries| :: v.entries[i].key != IncludeKey()
    ensures AnyInclude(stack + Values(v.entries)) <==> AnyInclude(stack) || HasInclude(v)
  {
    AppendInclude(stack, Values(v.entries));
    hide IncludeKey;
    assert forall i | 0 <= i < |v.entries| :: Values(v.entries)[i] == v.entries[i].value;
  }
}
