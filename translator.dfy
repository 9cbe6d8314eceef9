/**
 * The translation wrapper of bot/services/translator.py. The translation
 * backend is an arbitrary function that either answers or fails (`None`);
 * on failure the wrapper keeps the original text and appends a fixed note.
 */
module Translator {
  import opened Wrappers

  /** The note appended when the backend fails. */
  const FallbackNote: string := "\n\n(Перевод недоступен)"

  /** `translate_to_russian`: the backend's answer, or the input followed by the fallback note. */
  function TranslateToRussian(text: string, backend: string -> Option<string>): (r: string)
    ensures backend(text).Some? ==> r == backend(text).value
    ensures backend(text).None? ==> |r| == |text| + |FallbackNote|
    ensures backend(text).None? ==> r[..|text|] == text && r[|text|..] == FallbackNote
  {
    match backend(text)
    case Some(translated) => translated
    case None => text + FallbackNote
  }

  /** A failed translation is never empty, even for empty input. */
  lemma FallbackNeverEmpty(text: string, backend: string -> Option<string>)
    requires backend(text).None?
    ensures TranslateToRussian(text, backend) != []
  {
  }
}
