/** CallInsightsView: the panel for one call or meeting. It keeps an editable to-do list and the
    list of action items, each with a checked flag per row index, and a classification and notes
    for the interaction. The checked flags are a record from row index to boolean; a missing
    index reads as unchecked. */
module CallInsights {
  import opened Types
  import opened Strings
  import opened Flags

  const ClassificationOptions: seq<string> :=
    ["-- Select Classification --", "Prospect", "Lead", "Presentation", "Win", "Lost"]

  /** Every row of a list of `n` entries unchecked. */
  function AllUnchecked(n: nat): (r: map<int, bool>)
    ensures forall i :: i in r <==> 0 <= i < n
    ensures forall i :: i in r ==> !r[i]
  {
    if n == 0 then map[] else AllUnchecked(n - 1)[n - 1 := false]
  }

  /** `list.reduce((acc, _, index) => ({ ...acc, [index]: false }), {})`: one unchecked entry per
      index of the list, and no other key. */
  method UncheckedFor(list: seq<string>) returns (acc: map<int, bool>)
    ensures acc == AllUnchecked(|list|)
    ensures forall i :: i in acc <==> 0 <= i < |list|
    ensures forall i :: i in acc ==> !acc[i]
  {
    acc := map[];
    for index := 0 to |list|
      invariant acc == AllUnchecked(index)
    {
      acc := acc[index := false];
    }
  }

  /** Both `Call` and `Meeting` declare `duration`, so the `'duration' in item` test always
      holds. */
  predicate HasDurationField(item: Item) {
    match item
    case CallItem(c) => true
    case MeetingItem(m) => true
  }

  /** The panel heading: always "Call Insights", never "Meeting Insights". */
  function Heading(item: Item): (r: string)
    ensures r == "Call Insights"
  {
    if HasDurationField(item) then "Call Insights" else "Meeting Insights"
  }

  class CallInsightsView {
    var todos: seq<string>
    var actionItems: seq<string>
    var todoChecked: map<int, bool>
    var actionChecked: map<int, bool>
    var newTodoText: string
    var classification: string
    var notes: string

    /** The initial state followed by the effect for the first item. */
    constructor(item: Item)
      ensures item.Insights().Some? ==>
        todos == item.Insights().value.todoList && actionItems == item.Insights().value.actionItems
        && todoChecked == AllUnchecked(|todos|) && actionChecked == AllUnchecked(|actionItems|)
      ensures item.Insights().None? ==>
        todos == [] && actionItems == [] && todoChecked == map[] && actionChecked == map[]
      ensures newTodoText == [] && classification == ClassificationOptions[0] && notes == []
    {
      todos := [];
      actionItems := [];
      todoChecked := map[];
      actionChecked := map[];
      newTodoText := [];
      classification := ClassificationOptions[0];
      notes := [];
      new;
      ItemChanged(item);
    }

    /** The effect that runs whenever the item changes: load the lists with every row unchecked
        when there are insights, and always reset the classification and the notes. */
    method ItemChanged(item: Item)
      modifies this
      ensures item.Insights().Some? ==>
        todos == item.Insights().value.todoList && actionItems == item.Insights().value.actionItems
        && todoChecked == AllUnchecked(|todos|) && actionChecked == AllUnchecked(|actionItems|)
      ensures item.Insights().None? ==>
        todos == old(todos) && actionItems == old(actionItems)
        && todoChecked == old(todoChecked) && actionChecked == old(actionChecked)
      ensures classification == ClassificationOptions[0] && notes == []
      ensures newTodoText == old(newTodoText)
    {
      if item.Insights().Some? {
        var insights := item.Insights().value;
        todos := insights.todoList;
        actionItems := insights.actionItems;
        todoChecked := UncheckedFor(insights.todoList);
        actionChecked := UncheckedFor(insights.actionItems);
      }
      classification := ClassificationOptions[0];
      notes := [];
    }

    /** `handleTodoToggle(index)`. */
    method HandleTodoToggle(index: int)
      modifies this
      ensures todoChecked == Flip(old(todoChecked), index)
      ensures todos == old(todos) && actionItems == old(actionItems) && actionChecked == old(actionChecked)
      ensures newTodoText == old(newTodoText) && classification == old(classification) && notes == old(notes)
    {
      todoChecked := todoChecked[index := !IsSet(todoChecked, index)];
    }

    /** `handleActionItemToggle(index)`. */
    method HandleActionItemToggle(index: int)
      modifies this
      ensures actionChecked == Flip(old(actionChecked), index)
      ensures todos == old(todos) && actionItems == old(actionItems) && todoChecked == old(todoChecked)
      ensures newTodoText == old(newTodoText) && classification == old(classification) && notes == old(notes)
    {
      actionChecked := actionChecked[index := !IsSet(actionChecked, index)];
    }

    /** `handleAddTodo`: a blank entry is ignored; otherwise the trimmed text becomes the last
        to-do, its row starts unchecked and the input is cleared. */
    method HandleAddTodo()
      modifies this
      ensures Trim(old(newTodoText)) == [] ==>
        todos == old(todos) && todoChecked == old(todoChecked) && newTodoText == old(newTodoText)
      ensures Trim(old(newTodoText)) != [] ==>
        todos == old(todos) + [Trim(old(newTodoText))]
        && todoChecked == old(todoChecked)[|old(todos)| := false]
        && !IsSet(todoChecked, |todos| - 1)
        && newTodoText == []
      ensures actionItems == old(actionItems) && actionChecked == old(actionChecked)
      ensures classification == old(classification) && notes == old(notes)
    {
      var trimmed := Trim(newTodoText);
      if trimmed != [] {
        var newTodos := todos + [trimmed];
        var row := |newTodos| - 1;
        assert row == |todos|;
        todos := newTodos;
        todoChecked := todoChecked[row := false];
        assert !IsSet(todoChecked, row);
        newTodoText := [];
      }
    }

    method HandleNewTodoChange(value: string)
      modifies this
      ensures newTodoText == value
      ensures todos == old(todos) && todoChecked == old(todoChecked)
      ensures actionItems == old(actionItems) && actionChecked == old(actionChecked)
      ensures classification == old(classification) && notes == old(notes)
    {
      newTodoText := value;
    }

    method HandleClassificationChange(value: string)
      modifies this
      ensures classification == value
      ensures todos == old(todos) && todoChecked == old(todoChecked)
      ensures actionItems == old(actionItems) && actionChecked == old(actionChecked)
      ensures newTodoText == old(newTodoText) && notes == old(notes)
    {
      classification := value;
    }

    method HandleNotesChange(value: string)
      modifies this
      ensures notes == value
      ensures todos == old(todos) && todoChecked == old(todoChecked)
      ensures actionItems == old(actionItems) && actionChecked == old(actionChecked)
      ensures newTodoText == old(newTodoText) && classification == old(classification)
    {
      notes := value;
    }
  }
}
