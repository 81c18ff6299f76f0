/** The detail panel's selection: zero or one order, toggled by clicking a row. */
module Selection {
  import opened Wrappers
  import opened Orders

  /** `selectOrder`: clicking the selected order clears the selection, any other order replaces it. */
  function Toggle(selected: Option<OrderRef>, clicked: OrderRef): (r: Option<OrderRef>)
    ensures r.None? <==> selected == Some(clicked)
    ensures r.Some? ==> r == Some(clicked)
  {
    if selected == Some(clicked) then None else Some(clicked)
  }

  /** Clicking the same order twice restores the selection exactly when it was empty or that order. */
  lemma ToggleTwice(selected: Option<OrderRef>, clicked: OrderRef)
    ensures Toggle(Toggle(selected, clicked), clicked) == selected
            <==> selected == None || selected == Some(clicked)
  {
  }

  /** Selecting A and then a different B leaves only B selected. */
  lemma SelectThenSelectOther(selected: Option<OrderRef>, a: OrderRef, b: OrderRef)
    requires a != b
    ensures Toggle(Toggle(selected, a), b) == Some(b)
  {
  }
}
