/**
 * The `translate` command: the language-alias table and the resolution of
 * `<target> <text>` versus `<source> <target> <text>`.
 */
module Translate {
  import opened Wrappers
  import Text
  import Arguments

  /** The language codes the alias table can produce. */
  const LanguageCodes: set<string> := {"ja", "fr", "ko", "en", "de", "it", "es", "ru"}

  /** Every accepted spelling (already lower-case) and the code it stands for. */
  const Aliases: map<string, string> := map[
    "ja" := "ja", "jp" := "ja", "japanese" := "ja",
    "fr" := "fr", "french" := "fr", "baguette" := "fr",
    "ko" := "ko", "korean" := "ko", "kpop" := "ko",
    "en" := "en", "english" := "en",
    "de" := "de", "german" := "de",
    "it" := "it", "italian" := "it",
    "es" := "es", "spanish" := "es",
    "ru" := "ru", "russian" := "ru"
  ]

  /** `validate_unit`: map an ASCII-case-insensitive alias to its language code. */
  function ValidateUnit(unit: string): (r: Option<string>)
    ensures r.Some? ==> r.value in LanguageCodes
    ensures r.Some? <==> Text.LowerAscii(unit) in Aliases
  {
    match Text.LowerAscii(unit)
    case "ja" | "jp" | "japanese" => Some("ja")
    case "fr" | "french" | "baguette" => Some("fr")
    case "ko" | "korean" | "kpop" => Some("ko")
    case "en" | "english" => Some("en")
    case "de" | "german" => Some("de")
    case "it" | "italian" => Some("it")
    case "es" | "spanish" => Some("es")
    case "ru" | "russian" => Some("ru")
    case _ => None
  }

  /** The Japanese entries of the alias table. */
  lemma AliasesLookupJapanese()
    ensures Aliases["ja"] == Aliases["jp"] == Aliases["japanese"] == "ja"
  { }

  /** The French entries of the alias table. */
  lemma AliasesLookupFrench()
    ensures Aliases["fr"] == Aliases["french"] == Aliases["baguette"] == "fr"
  { }

  /** The Korean and English entries of the alias table. */
  lemma AliasesLookupKoreanEnglish()
    ensures Aliases["ko"] == Aliases["korean"] == Aliases["kpop"] == "ko"
    ensures Aliases["en"] == Aliases["english"] == "en"
  { }

  /** The entries of the alias table for German, Italian, Spanish and Russian. */
  lemma AliasesLookupGermanItalianSpanishRussian()
    ensures Aliases["de"] == Aliases["german"] == "de"
    ensures Aliases["it"] == Aliases["italian"] == "it"
    ensures Aliases["es"] == Aliases["spanish"] == "es"
    ensures Aliases["ru"] == Aliases["russian"] == "ru"
  { }

  /** The code `validate_unit` returns is the one the alias table lists for that spelling. */
  lemma ValidateUnitAgreesWithAliases(unit: string)
    ensures ValidateUnit(unit).Some? ==> ValidateUnit(unit).value == Aliases[Text.LowerAscii(unit)]
  {
    AliasesLookupJapanese();
    AliasesLookupFrench();
    AliasesLookupKoreanEnglish();
    AliasesLookupGermanItalianSpanishRussian();
  }

  /** Upper and lower case spellings of an alias are the same language. */
  lemma ValidateUnitCaseInsensitive(unit: string)
    ensures ValidateUnit(unit) == ValidateUnit(Text.LowerAscii(unit))
  {
    Text.LowerAsciiIdempotent(unit);
  }

  /** Each language code is an alias of itself, so validating a result again changes nothing. */
  lemma ValidateUnitIdempotent(unit: string)
    ensures ValidateUnit(unit).Some? ==> ValidateUnit(ValidateUnit(unit).value) == ValidateUnit(unit)
  {
    if ValidateUnit(unit).Some? {
      var code := ValidateUnit(unit).value;
      assert Text.LowerAscii(code) == code;
    }
  }

  const FirstArgumentError := "The first argument must be a valid target language code!"
  const MissingTextError := "There needs to be a text to be translated!"

  /** What the command sends to the translation endpoint. */
  datatype TranslateRequest = TranslateRequest(source: string, target: string, text: string)

  /**
   * The argument handling of `translate`, up to the request it would send.
   * Fewer than two tokens make the source panic (`unwrap`), hence the requires.
   */
  method ResolveTranslateArgs(tokens: seq<string>) returns (r: Result<TranslateRequest, string>)
    requires |tokens| >= 2
    requires forall i :: 0 <= i < |tokens| ==> tokens[i] != ""
    ensures ValidateUnit(tokens[0]).None? ==> r == Failure(FirstArgumentError)
    ensures ValidateUnit(tokens[0]).Some? && ValidateUnit(tokens[1]).Some? ==>
      r == if |tokens| == 2 then Failure(MissingTextError)
           else Success(TranslateRequest(ValidateUnit(tokens[0]).value, ValidateUnit(tokens[1]).value,
                                         Text.Join(tokens[2..], " ")))
    ensures ValidateUnit(tokens[0]).Some? && ValidateUnit(tokens[1]).None? ==>
      r == Success(TranslateRequest("auto", ValidateUnit(tokens[0]).value, Text.Join(tokens[1..], " ")))
    ensures r.Success? && ValidateUnit(tokens[1]).None? ==> tokens[1] <= r.value.text
  {
    var args := new Arguments.Args(tokens);
    var firstArg := args.Single();
    var secondArg := args.Single();

    var targetLang: string;
    match ValidateUnit(firstArg.value) {
      case Some(lang) => targetLang := lang;
      case None => return Failure(FirstArgumentError);
    }

    var sourceLang: string;
    match ValidateUnit(secondArg.value) {
      case Some(lang) =>
        // the second argument is a language too: it becomes the target
        var targetLangCopy := targetLang;
        targetLang := lang;
        sourceLang := targetLangCopy;
      case None =>
        // the second argument is the start of the text: put it back
        args.Rewind();
        sourceLang := "auto";
    }

    var empty := args.IsEmpty();
    if empty {
      return Failure(MissingTextError);
    }
    var text := args.Rest();
    Text.JoinStartsWithHead(tokens[1..], " ");
    r := Success(TranslateRequest(sourceLang, targetLang, text));
  }
}
