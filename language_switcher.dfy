/** The language button: a click switches between English and Spanish and
    announces the new language in a toast; the button names the language a
    click switches to. */
module Language {
  const English := "en"
  const Spanish := "es"

  /** `language === 'en' ? 'es' : 'en'`: any language other than English
      switches to English. */
  function Toggle(language: string): (r: string)
    ensures language == English ==> r == Spanish
    ensures language != English ==> r == English
  {
    if language == English then Spanish else English
  }

  /** A click always changes the language, and two clicks return to it,
      for both supported languages. */
  lemma ToggleInvolution(language: string)
    requires language == English || language == Spanish
    ensures Toggle(language) != language
    ensures Toggle(Toggle(language)) == language
  {
  }

  /** The button's text. */
  function ButtonLabel(language: string): string {
    if language == English then "ES" else "EN"
  }

  /** The button's tooltip. */
  function Tooltip(language: string): string {
    "Switch to " + (if language == English then "Spanish" else "English")
  }

  datatype Toast = Toast(title: string, description: string)

  /** The toast shown after a switch, in the new language. */
  function ToastFor(newLanguage: string): Toast {
    if newLanguage == Spanish then Toast("Idioma cambiado", "Cambiado a Español")
    else Toast("Language changed", "Changed to English")
  }

  /** The button names the language a click switches to, and the toast
      after the click is in that language. */
  lemma ButtonNamesTarget(language: string)
    ensures Toggle(language) == Spanish <==> ButtonLabel(language) == "ES"
    ensures Toggle(language) == Spanish <==> Tooltip(language) == "Switch to Spanish"
    ensures Toggle(language) == Spanish <==> ToastFor(Toggle(language)).title == "Idioma cambiado"
  {
    if Toggle(language) != Spanish {
      assert Tooltip(language)[10] == 'E';
      assert ToastFor(Toggle(language)).title[0] == 'L';
    }
  }

  /** The shared language setting and the toasts shown so far. */
  class LanguageSwitcher {
    var language: string
    var toasts: seq<Toast>

    constructor (initial: string)
      ensures language == initial && toasts == []
    {
      language := initial;
      toasts := [];
    }

    /** `handleLanguageToggle`. */
    method HandleToggle()
      modifies this
      ensures language == Toggle(old(language))
      ensures toasts == old(toasts) + [ToastFor(language)]
    {
      var newLanguage := if language == English then Spanish else English;
      language := newLanguage;
      toasts := toasts + [ToastFor(newLanguage)];
    }
  }
}
