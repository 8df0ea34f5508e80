/**
 * The todo list screen: an ordered list of items changed in place by the
 * add button, a click on a card (toggle done) and the card's delete button,
 * and the two read-only views of pending and completed items.
 */
module Todo {

  /** One task; items are compared by value (all three fields). */
  datatype TodoItem = TodoItem(id: int, text: string, done: bool)

  /** The item a click on its card puts in its place: the same item with `done` negated. */
  function Flip(x: TodoItem): TodoItem
  {
    x.(done := !x.done)
  }

  // ---------------------------------------------------------------------------
  // Trimming the input text
  // ---------------------------------------------------------------------------

  /**
   * The characters Kotlin's `Char.isWhitespace` accepts on the JVM: the
   * control characters TAB through CR and FS through US, and every Unicode
   * space, line and paragraph separator.
   */
  predicate IsWhitespace(c: char)
  {
    || ('\t' <= c <= '\r')
    || ('\U{1C}' <= c <= ' ')
    || c == '\U{A0}' || c == '\U{1680}'
    || ('\U{2000}' <= c <= '\U{200A}')
    || c == '\U{2028}' || c == '\U{2029}' || c == '\U{202F}' || c == '\U{205F}' || c == '\U{3000}'
  }

  predicate AllWhitespace(t: string)
  {
    forall i :: 0 <= i < |t| ==> IsWhitespace(t[i])
  }

  /** How many characters at the start of `s` are whitespace. */
  function LeadingWhitespace(s: string): (n: nat)
    ensures n <= |s|
    ensures forall i :: 0 <= i < n ==> IsWhitespace(s[i])
    ensures n < |s| ==> !IsWhitespace(s[n])
  {
    if s == [] || !IsWhitespace(s[0]) then 0
    else
      var n' := LeadingWhitespace(s[1..]);
      assert forall i :: 1 <= i <= n' ==> s[i] == s[1..][i - 1];
      n' + 1
  }

  /** How many characters at the end of `s` are whitespace. */
  function TrailingWhitespace(s: string): (n: nat)
    ensures n <= |s|
    ensures forall i :: |s| - n <= i < |s| ==> IsWhitespace(s[i])
    ensures n < |s| ==> !IsWhitespace(s[|s| - n - 1])
  {
    if s == [] || !IsWhitespace(s[|s| - 1]) then 0
    else TrailingWhitespace(s[..|s| - 1]) + 1
  }

  /**
   * Kotlin's `trim()`: the slice of `s` that neither starts nor ends with
   * whitespace, everything cut off on either side being whitespace.
   */
  function Trim(s: string): (r: string)
    ensures r == [] <==> AllWhitespace(s)
    ensures r != [] ==> !IsWhitespace(r[0]) && !IsWhitespace(r[|r| - 1])
    ensures var k := LeadingWhitespace(s);
      k + |r| <= |s| && r == s[k..k + |r|] && AllWhitespace(s[..k]) && AllWhitespace(s[k + |r|..])
  {
    var a := LeadingWhitespace(s);
    var b := if a == |s| then a else |s| - TrailingWhitespace(s);
    assert a <= b;
    assert AllWhitespace(s[..a]) by {
      forall i | 0 <= i < a ensures IsWhitespace(s[..a][i]) { assert s[..a][i] == s[i]; }
    }
    assert AllWhitespace(s[b..]) by {
      forall i | 0 <= i < |s| - b ensures IsWhitespace(s[b..][i]) { assert s[b..][i] == s[b + i]; }
    }
    assert a == |s| <==> AllWhitespace(s);
    s[a..b]
  }

  /** Trimming twice is trimming once. */
  lemma TrimIdempotent(s: string)
    ensures Trim(Trim(s)) == Trim(s)
  {
    var r := Trim(s);
    if r != [] {
      assert LeadingWhitespace(r) == 0;
      assert TrailingWhitespace(r) == 0;
    }
  }

  /** The add button's test: the input is blank when its trim is empty. */
  predicate IsBlank(s: string)
  {
    Trim(s) == []
  }

  // ---------------------------------------------------------------------------
  // Ids
  // ---------------------------------------------------------------------------

  /** The largest id in a non-empty list (Kotlin's `maxOf { it.id }`). */
  function MaxId(s: seq<TodoItem>): (m: int)
    requires |s| > 0
    ensures forall i :: 0 <= i < |s| ==> s[i].id <= m
    ensures exists i :: 0 <= i < |s| && s[i].id == m
  {
    if |s| == 1 then s[0].id
    else
      var m' := MaxId(s[1..]);
      assert forall i :: 1 <= i < |s| ==> s[i] == s[1..][i - 1];
      if s[0].id >= m' then s[0].id else m'
  }

  /**
   * The id the add button gives a new item: 1 for an empty list, otherwise
   * one more than the largest id, hence above every id in the list.
   */
  function NextId(s: seq<TodoItem>): (r: int)
    ensures forall i :: 0 <= i < |s| ==> s[i].id < r
    ensures s == [] ==> r == 1
    ensures s != [] ==> exists i :: 0 <= i < |s| && s[i].id == r - 1
  {
    if |s| == 0 then 1 else MaxId(s) + 1
  }

  predicate DistinctIds(s: seq<TodoItem>)
  {
    forall i, j :: 0 <= i < j < |s| ==> s[i].id != s[j].id
  }

  predicate PositiveIds(s: seq<TodoItem>)
  {
    forall i :: 0 <= i < |s| ==> s[i].id >= 1
  }

  /** Appending an item with the next id keeps ids distinct and positive. */
  lemma AppendNextIdKeepsIds(s: seq<TodoItem>, text: string)
    requires DistinctIds(s) && PositiveIds(s)
    ensures DistinctIds(s + [TodoItem(NextId(s), text, false)])
    ensures PositiveIds(s + [TodoItem(NextId(s), text, false)])
  {
    var s' := s + [TodoItem(NextId(s), text, false)];
    assert forall i :: 0 <= i < |s| ==> s'[i] == s[i];
  }

  // ---------------------------------------------------------------------------
  // Finding, toggling and removing an item
  // ---------------------------------------------------------------------------

  /** Kotlin's `indexOf`: the first position holding `x`, or -1. */
  function IndexOf(s: seq<TodoItem>, x: TodoItem): (i: int)
    ensures x in s ==> 0 <= i < |s| && s[i] == x && x !in s[..i]
    ensures x !in s ==> i == -1
  {
    if s == [] then -1
    else if s[0] == x then 0
    else
      var j := IndexOf(s[1..], x);
      assert s[1..][..(if j < 0 then 0 else j)] == s[1..(if j < 0 then 1 else j + 1)];
      if j < 0 then -1 else j + 1
  }

  /** A click on the card of `x`: the item at `x`'s position replaced by its flipped copy. */
  function ToggleIn(s: seq<TodoItem>, x: TodoItem): (r: seq<TodoItem>)
    requires x in s
    ensures |r| == |s| && r[IndexOf(s, x)] == Flip(x)
    ensures forall j :: 0 <= j < |s| && j != IndexOf(s, x) ==> r[j] == s[j]
    ensures forall j :: 0 <= j < |s| ==> r[j].id == s[j].id && r[j].text == s[j].text
  {
    var i := IndexOf(s, x);
    s[i := Flip(x)]
  }

  /** Kotlin's `remove(element)`: drops the first occurrence of `x`, if any. */
  function RemoveFirst(s: seq<TodoItem>, x: TodoItem): (r: seq<TodoItem>)
    ensures x !in s ==> r == s
    ensures x in s ==> |r| == |s| - 1
    ensures multiset(r) == multiset(s) - multiset{x}
  {
    if s == [] then []
    else if s[0] == x then
      assert s == [x] + s[1..];
      s[1..]
    else
      assert s == [s[0]] + s[1..];
      [s[0]] + RemoveFirst(s[1..], x)
  }

  /** What is removed is exactly the first occurrence: the items before and after it stay in order. */
  lemma {:induction false} RemoveFirstSplices(s: seq<TodoItem>, x: TodoItem)
    requires x in s
    ensures RemoveFirst(s, x) == s[..IndexOf(s, x)] + s[IndexOf(s, x) + 1..]
  {
    if s[0] != x {
      var j := IndexOf(s[1..], x);
      assert IndexOf(s, x) == j + 1;
      calc {
        RemoveFirst(s, x);
        [s[0]] + RemoveFirst(s[1..], x);
        { RemoveFirstSplices(s[1..], x); }
        [s[0]] + (s[1..][..j] + s[1..][j + 1..]);
        { assert [s[0]] + s[1..][..j] == s[..j + 1]; assert s[1..][j + 1..] == s[j + 2..]; }
        s[..j + 1] + s[j + 2..];
      }
    }
  }

  /** Position `k` after removing `x` holds what stood at `k`, or at `k + 1` once past the removed item. */
  lemma RemoveFirstAt(s: seq<TodoItem>, x: TodoItem, k: int)
    requires x in s && 0 <= k < |s| - 1
    ensures RemoveFirst(s, x)[k] == s[if k < IndexOf(s, x) then k else k + 1]
  {
    RemoveFirstSplices(s, x);
  }

  /** Removing an item keeps the others' ids distinct and positive. */
  lemma {:induction false} RemoveKeepsIds(s: seq<TodoItem>, x: TodoItem)
    requires DistinctIds(s) && PositiveIds(s)
    ensures DistinctIds(RemoveFirst(s, x)) && PositiveIds(RemoveFirst(s, x))
  {
    if x in s {
      forall k | 0 <= k < |s| - 1 ensures RemoveFirst(s, x)[k] == s[if k < IndexOf(s, x) then k else k + 1] {
        RemoveFirstAt(s, x, k);
      }
    }
  }

  /** With distinct ids, clicking the card twice (the second time on the flipped item) restores the list. */
  lemma ToggleTwice(s: seq<TodoItem>, x: TodoItem)
    requires DistinctIds(s) && x in s
    ensures Flip(x) in ToggleIn(s, x)
    ensures ToggleIn(ToggleIn(s, x), Flip(x)) == s
  {
    var i := IndexOf(s, x);
    var t := ToggleIn(s, x);
    assert t == s[i := Flip(x)];
    assert t[i] == Flip(x);
    assert Flip(x) !in t[..i] by {
      forall j | 0 <= j < i ensures t[..i][j] != Flip(x) {
        assert s[j].id != s[i].id;
      }
    }
    assert IndexOf(t, Flip(x)) == i;
    assert Flip(Flip(x)) == x;
  }

  /**
   * Ids are not reserved: after removing the item with the largest id, the
   * next add gives an id no larger than the removed one.
   */
  lemma IdReuse(s: seq<TodoItem>, x: TodoItem)
    requires DistinctIds(s) && PositiveIds(s) && x in s && x.id == MaxId(s)
    ensures NextId(RemoveFirst(s, x)) <= x.id
  {
    var r := RemoveFirst(s, x);
    var i := IndexOf(s, x);
    forall k | 0 <= k < |r| ensures r[k].id < x.id {
      RemoveFirstAt(s, x, k);
    }
  }

  /** The removed largest id is handed out again whenever the id just below it is still in use. */
  lemma IdReuseExact(s: seq<TodoItem>, x: TodoItem, k: int)
    requires DistinctIds(s) && PositiveIds(s) && x in s && x.id == MaxId(s)
    requires 0 <= k < |s| && s[k].id == x.id - 1
    ensures NextId(RemoveFirst(s, x)) == x.id
  {
    IdReuse(s, x);
    var i := IndexOf(s, x);
    assert s[k] != x && k != i;
    var k' := if k < i then k else k - 1;
    RemoveFirstAt(s, x, k');
    assert RemoveFirst(s, x)[k'] == s[k];
  }

  /** Without the id just below, the next id can fall further: from ids 1 and 5, deleting 5 gives 2. */
  lemma IdReuseGap()
    ensures var a := TodoItem(1, "a", false);
            var b := TodoItem(5, "b", false);
            MaxId([a, b]) == 5 && NextId(RemoveFirst([a, b], b)) == 2
  {
    var a := TodoItem(1, "a", false);
    var b := TodoItem(5, "b", false);
    assert IndexOf([a, b], b) == 1;
    assert RemoveFirst([a, b], b) == [a];
  }

  // ---------------------------------------------------------------------------
  // The pending and completed views
  // ---------------------------------------------------------------------------

  /** The items not done, in list order (`todos.filter { !it.done }`). */
  function Pending(s: seq<TodoItem>): (r: seq<TodoItem>)
    ensures |r| <= |s|
    ensures forall i :: 0 <= i < |r| ==> !r[i].done
  {
    if s == [] then []
    else (if s[0].done then [] else [s[0]]) + Pending(s[1..])
  }

  /** The items done, in list order (`todos.filter { it.done }`). */
  function Completed(s: seq<TodoItem>): (r: seq<TodoItem>)
    ensures |r| <= |s|
    ensures forall i :: 0 <= i < |r| ==> r[i].done
  {
    if s == [] then []
    else (if s[0].done then [s[0]] else []) + Completed(s[1..])
  }

  /** An item is in a view exactly when it is in the list with the matching `done`. */
  lemma {:induction false} ViewMembers(s: seq<TodoItem>, x: TodoItem)
    ensures x in Pending(s) <==> x in s && !x.done
    ensures x in Completed(s) <==> x in s && x.done
  {
    if s != [] {
      ViewMembers(s[1..], x);
      assert x in s <==> x == s[0] || x in s[1..];
    }
  }

  /** The two views split the list: their sizes add up and together they hold every item once. */
  lemma {:induction false} PartitionCounts(s: seq<TodoItem>)
    ensures |Pending(s)| + |Completed(s)| == |s|
    ensures multiset(Pending(s)) + multiset(Completed(s)) == multiset(s)
  {
    if s != [] {
      PartitionCounts(s[1..]);
      assert s == [s[0]] + s[1..];
    }
  }

  /** Both views keep list order: filtering a concatenation concatenates the filtered parts. */
  lemma {:induction false} PendingOfAppend(a: seq<TodoItem>, b: seq<TodoItem>)
    ensures Pending(a + b) == Pending(a) + Pending(b)
  {
    if a == [] {
      assert a + b == b;
    } else {
      var h := if a[0].done then [] else [a[0]];
      calc {
        Pending(a + b);
        { assert (a + b)[0] == a[0]; assert (a + b)[1..] == a[1..] + b; }
        h + Pending(a[1..] + b);
        { PendingOfAppend(a[1..], b); }
        h + (Pending(a[1..]) + Pending(b));
        (h + Pending(a[1..])) + Pending(b);
      }
    }
  }

  lemma {:induction false} CompletedOfAppend(a: seq<TodoItem>, b: seq<TodoItem>)
    ensures Completed(a + b) == Completed(a) + Completed(b)
  {
    if a == [] {
      assert a + b == b;
    } else {
      var h := if a[0].done then [a[0]] else [];
      calc {
        Completed(a + b);
        { assert (a + b)[0] == a[0]; assert (a + b)[1..] == a[1..] + b; }
        h + Completed(a[1..] + b);
        { CompletedOfAppend(a[1..], b); }
        h + (Completed(a[1..]) + Completed(b));
        (h + Completed(a[1..])) + Completed(b);
      }
    }
  }

  /** A newly added item shows up last in the pending view, and the completed view is unchanged. */
  lemma AddedItemIsPending(s: seq<TodoItem>, item: TodoItem)
    requires !item.done
    ensures Pending(s + [item]) == Pending(s) + [item]
    ensures Completed(s + [item]) == Completed(s)
  {
    PendingOfAppend(s, [item]);
    CompletedOfAppend(s, [item]);
  }

  /** How many pending items a list has around one given item. */
  lemma PendingCountAround(pre: seq<TodoItem>, a: TodoItem, post: seq<TodoItem>)
    ensures |Pending(pre + [a] + post)| == |Pending(pre)| + (if a.done then 0 else 1) + |Pending(post)|
  {
    PendingOfAppend(pre + [a], post);
    PendingOfAppend(pre, [a]);
  }

  /** A click on a card moves exactly one item between the two views. */
  lemma ToggleMovesOneItem(s: seq<TodoItem>, x: TodoItem)
    requires x in s
    ensures !x.done ==> |Pending(ToggleIn(s, x))| == |Pending(s)| - 1
                        && |Completed(ToggleIn(s, x))| == |Completed(s)| + 1
    ensures x.done ==> |Pending(ToggleIn(s, x))| == |Pending(s)| + 1
                       && |Completed(ToggleIn(s, x))| == |Completed(s)| - 1
  {
    var i := IndexOf(s, x);
    var t := ToggleIn(s, x);
    var pre, post := s[..i], s[i + 1..];
    assert s == pre + [x] + post;
    assert t == pre + [Flip(x)] + post;
    PendingCountAround(pre, x, post);
    PendingCountAround(pre, Flip(x), post);
    PartitionCounts(s);
    PartitionCounts(t);
  }

  // ---------------------------------------------------------------------------
  // The screen, updated in place
  // ---------------------------------------------------------------------------

  /** The todo screen: the text field's content and the observable list of items. */
  class TodoList {
    var todos: seq<TodoItem>
    var newTaskText: string

    ghost predicate Valid()
      reads this
    {
      DistinctIds(todos) && PositiveIds(todos)
    }

    constructor ()
      ensures Valid() && todos == [] && newTaskText == ""
    {
      todos := [];
      newTaskText := "";
    }

    /** Typing in the text field. */
    method EditText(text: string)
      modifies this
      ensures newTaskText == text && todos == old(todos)
    {
      newTaskText := text;
    }

    /**
     * The add button: a blank input is ignored; otherwise one item with the
     * next id, the trimmed text and `done` false is appended and the field
     * is cleared.
     */
    method Add()
      requires Valid()
      modifies this
      ensures Valid()
      ensures IsBlank(old(newTaskText)) ==> todos == old(todos) && newTaskText == old(newTaskText)
      ensures !IsBlank(old(newTaskText)) ==>
        && todos == old(todos) + [TodoItem(NextId(old(todos)), Trim(old(newTaskText)), false)]
        && newTaskText == ""
    {
      var text := Trim(newTaskText);
      if text != [] {
        var newId := if |todos| == 0 then 1 else MaxId(todos) + 1;
        AppendNextIdKeepsIds(todos, text);
        todos := todos + [TodoItem(newId, text, false)];
        newTaskText := "";
      }
    }

    /** A click on the card of `task`. */
    method Toggle(task: TodoItem)
      requires Valid() && task in todos
      modifies this
      ensures Valid()
      ensures todos == ToggleIn(old(todos), task) && newTaskText == old(newTaskText)
    {
      var index := IndexOf(todos, task);
      todos := todos[index := Flip(task)];
      assert forall k :: 0 <= k < |todos| ==> todos[k].id == old(todos)[k].id;
    }

    /** The delete button on the card of `task`. */
    method Remove(task: TodoItem)
      requires Valid()
      modifies this
      ensures Valid()
      ensures todos == RemoveFirst(old(todos), task) && newTaskText == old(newTaskText)
    {
      RemoveKeepsIds(todos, task);
      todos := RemoveFirst(todos, task);
    }
  }
}
