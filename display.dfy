/**
 * The presentation fields that options and keybinds share, and the defaulting their
 * `__post_init__` applies to them.
 */
module Display {
  import opened Wrappers

  /** identifier, display_name, description, description_title and is_hidden. */
  datatype Labels = Labels(
    identifier: string,
    displayName: string,
    description: string,
    descriptionTitle: string,
    isHidden: bool)

  /**
   * `__post_init__`: a display name that was not given copies the identifier, and a description
   * title that was not given copies the (possibly defaulted) display name.
   */
  function MakeLabels(
    identifier: string,
    displayName: Option<string>,
    description: string,
    descriptionTitle: Option<string>,
    isHidden: bool): (l: Labels)
    ensures l.identifier == identifier && l.description == description && l.isHidden == isHidden
    ensures l.displayName == (if displayName.Some? then displayName.value else identifier)
    ensures l.descriptionTitle == (if descriptionTitle.Some? then descriptionTitle.value else l.displayName)
    ensures displayName.None? && descriptionTitle.None? ==> l.descriptionTitle == identifier
  {
    var shown := displayName.GetOr(identifier);
    Labels(identifier, shown, description, descriptionTitle.GetOr(shown), isHidden)
  }
}
