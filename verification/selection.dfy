/** The click-to-toggle selection the role-matrix pages share: clicking the
    selected item clears the selection, clicking any other item selects it. */
module Selection {
  import opened Common

  /** `handleCardClick` / `handleDimensionClick`: the new selection after
      clicking `id` while `current` is selected. */
  function Toggle(current: Option<string>, id: string): (next: Option<string>)
    ensures next == None <==> current == Some(id)
    ensures next != None ==> next == Some(id)
  {
    if current == Some(id) then None else Some(id)
  }

  /** Clicking the same item twice restores the selection when nothing, or
      that item, was selected; from another item's selection it clears it. */
  lemma ToggleTwice(current: Option<string>, id: string)
    ensures current == None || current == Some(id) ==> Toggle(Toggle(current, id), id) == current
    ensures current != None && current != Some(id) ==> Toggle(Toggle(current, id), id) == None
  {
  }
}
