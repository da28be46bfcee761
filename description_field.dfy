/** The title and description card of the Qvain description step
    (`qvain/description/descriptionField.jsx`): the language toggle, which
    language button is active, and the placeholders' translation keys. */
module DescriptionField {

  const ENGLISH := "ENGLISH"
  const FINNISH := "FINNISH"

  const STUB := "qvain.description.description."

  /** The click handler's new `active`: English goes to Finnish, anything
      else to English. */
  function Toggled(active: string): (next: string)
    ensures active == ENGLISH ==> next == FINNISH
    ensures active != ENGLISH ==> next == ENGLISH
  {
    if active == ENGLISH then FINNISH else ENGLISH
  }

  /** Two clicks from either language restore it; from any other value the
      toggle only ever reaches the two languages. */
  lemma ToggleTwice(active: string)
    ensures active == ENGLISH || active == FINNISH ==> Toggled(Toggled(active)) == active
    ensures Toggled(active) == ENGLISH || Toggled(active) == FINNISH
  {
  }

  /** The `active` prop of the button for `buttonLang`. */
  predicate ButtonActive(activeLang: string, buttonLang: string) {
    activeLang == buttonLang
  }

  /** With `active` one of the two languages, exactly one of the two
      buttons is active. */
  lemma ExactlyOneButtonActive(active: string)
    requires active == ENGLISH || active == FINNISH
    ensures ButtonActive(active, ENGLISH) != ButtonActive(active, FINNISH)
  {
  }

  /** `getPlaceholder(field, activeLang)`. */
  function Placeholder(field: string, activeLang: string): (key: string)
    ensures STUB + field + "." <= key
    ensures |key| == |STUB| + |field| + 1 + 13
    ensures key[|key| - 13..] == (if activeLang == ENGLISH then "placeholderEn" else "placeholderFi")
  {
    var stub := STUB + field + ".";
    if activeLang == ENGLISH then stub + "placeholderEn" else stub + "placeholderFi"
  }

  /** The placeholders of the rendered card: the title input and the
      description textarea both ask for the `'title'` key. */
  datatype Placeholders = Placeholders(titleInput: string, descriptionTextarea: string)

  function CardPlaceholders(activeLang: string): (p: Placeholders)
    ensures p.titleInput == Placeholder("title", activeLang)
    ensures p.descriptionTextarea == Placeholder("title", activeLang)
  {
    Placeholders(Placeholder("title", activeLang), Placeholder("title", activeLang))
  }

  /** The description textarea does not show the description's own
      placeholder key. */
  lemma DescriptionShowsTitlePlaceholder(activeLang: string)
    ensures CardPlaceholders(activeLang).descriptionTextarea != Placeholder("description", activeLang)
  {
    var t := Placeholder("title", activeLang);
    var d := Placeholder("description", activeLang);
    assert |t| != |d|;
  }

  /** The component state: the active language. */
  class DescriptionFieldState {
    var active: string

    constructor ()
      ensures active == ENGLISH
    {
      active := ENGLISH;
    }

    /** `handleLanguageButtonClisck`. */
    method HandleLanguageButtonClick()
      modifies this
      ensures active == Toggled(old(active))
    {
      if active == ENGLISH {
        active := FINNISH;
      } else {
        active := ENGLISH;
      }
    }
  }
}
