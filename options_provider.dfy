/**
 * The additional options a conversion type forces into the dialog, and the
 * static table from an option id to the translation tag of its label.
 */
module AdditionalOptions {
  import opened Wrappers

  /** `ConverterTypes.WORD_TO_DITA`. */
  const WordToDita: string := "word.to.dita"

  /** `OptionTags.CREATE_DITA_MAP_FROM_WORD`. */
  const CreateDitaMapFromWord: string := "create.dita.map.from.word"

  /** `Tags.CREATE_DITA_MAP_OPTION`. */
  const CreateDitaMapOption: string := "Create_dita_map_option"

  /** The option -> translation tag table, filled once by the static initialiser. */
  const OptionToTranslationTag: map<string, string> := map[CreateDitaMapFromWord := CreateDitaMapOption]

  /**
   * `getImposedAdditionalOptions`: a fresh list holding the DITA-map option
   * for Word -> DITA, and nothing for any other type (a null type included).
   */
  function ImposedAdditionalOptions(conversionType: Option<string>): (options: seq<string>)
    ensures conversionType == Some(WordToDita) ==> options == [CreateDitaMapFromWord]
    ensures conversionType != Some(WordToDita) ==> options == []
    ensures |options| <= 1
    ensures forall o :: multiset(options)[o] <= 1
    ensures forall o :: o in options ==> TranslationTagFor(o).Some?
  {
    if conversionType == Some(WordToDita) then [CreateDitaMapFromWord] else []
  }

  /** The imposed options of a type, as a set. */
  function ImposedSet(conversionType: Option<string>): (s: set<string>)
    ensures forall o :: o in s <==> o in ImposedAdditionalOptions(conversionType)
  {
    set o | o in ImposedAdditionalOptions(conversionType)
  }

  /** `getTranslationTagFor`: the tag of a known option, null for any other id. */
  function TranslationTagFor(additionalOption: string): (tag: Option<string>)
    ensures tag.Some? <==> additionalOption == CreateDitaMapFromWord
    ensures tag.Some? ==> tag.value == CreateDitaMapOption
  {
    if additionalOption in OptionToTranslationTag then Some(OptionToTranslationTag[additionalOption]) else None
  }

  /** The only types that impose anything are Word -> DITA, and it imposes exactly the DITA map. */
  lemma ImposedNonEmptyOnlyForWordToDita(conversionType: Option<string>)
    ensures ImposedSet(conversionType) != {} <==> conversionType == Some(WordToDita)
    ensures conversionType == Some(WordToDita) ==> ImposedSet(conversionType) == {CreateDitaMapFromWord}
  {
    if conversionType == Some(WordToDita) {
      assert CreateDitaMapFromWord in ImposedAdditionalOptions(conversionType);
    }
  }
}
