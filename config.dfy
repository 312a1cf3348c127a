/**
 * `CONFIG` and `ConfigUtils` from js/config.example.js: the constants the rest of the application
 * reads, and the validators, each a single test against an anchored regular expression or `trim`.
 */
module Config {
  import opened JsString

  /** CONFIG.APP.MAX_FILE_SIZE: 5 MB. */
  const MAX_FILE_SIZE: nat := 5 * 1024 * 1024

  /** CONFIG.MESSAGES.ERROR and CONFIG.MESSAGES.SUCCESS entries that the modelled code throws or shows. */
  const ERROR_NOT_FOUND := "Elemento non trovato."
  const ERROR_DATABASE := "Errore del database. Riprova più tardi."
  const SUCCESS_SAVE := "Elemento salvato con successo!"
  const SUCCESS_UPDATE := "Elemento aggiornato con successo!"

  /** `[0-9]` (and `\d`). */
  predicate IsAsciiDigit(c: char) {
    '0' <= c <= '9'
  }

  /** CONFIG.APP.VAT_REGEX, `/^IT[0-9]{11}$/`: exactly `IT` and eleven digits. */
  predicate MatchesVatRegex(s: string) {
    |s| == 13 && s[0] == 'I' && s[1] == 'T' && forall i :: 2 <= i < 13 ==> IsAsciiDigit(s[i])
  }

  /** One character of the class `[A-Za-z0-9\-\/]`. */
  predicate IsInvoiceNumberChar(c: char) {
    'A' <= c <= 'Z' || 'a' <= c <= 'z' || IsAsciiDigit(c) || c == '-' || c == '/'
  }

  /** CONFIG.APP.INVOICE_NUMBER_REGEX, `/^[A-Za-z0-9\-\/]+$/`. */
  predicate MatchesInvoiceNumberRegex(s: string) {
    |s| > 0 && forall i :: 0 <= i < |s| ==> IsInvoiceNumberChar(s[i])
  }

  /**
   * ConfigUtils.validateVAT: a blank VAT number is accepted (it is optional); any other is tested,
   * upper-cased but not trimmed, against the regex. So `it` in lower case passes, and so the
   * characterisation below needs no case mapping.
   */
  function ValidateVat(vat: string): (r: bool)
    ensures IsBlank(vat) ==> r
  {
    if vat == "" || Trim(vat) == "" then true else MatchesVatRegex(ToUpper(vat))
  }

  /** What validateVAT accepts, stated on the input itself. */
  predicate IsItalianVatNumber(vat: string) {
    && |vat| == 13
    && (vat[0] == 'I' || vat[0] == 'i')
    && (vat[1] == 'T' || vat[1] == 't')
    && forall i :: 2 <= i < 13 ==> IsAsciiDigit(vat[i])
  }

  lemma UpperCharVat(c: char)
    ensures UpperChar(c) == 'I' <==> c == 'I' || c == 'i'
    ensures UpperChar(c) == 'T' <==> c == 'T' || c == 't'
    ensures IsAsciiDigit(UpperChar(c)) <==> IsAsciiDigit(c)
  {
  }

  /** A non-blank VAT number is accepted iff it is `IT` (either case) followed by eleven digits. */
  lemma ValidateVatCharacterized(vat: string)
    requires !IsBlank(vat)
    ensures ValidateVat(vat) <==> IsItalianVatNumber(vat)
  {
    var u := ToUpper(vat);
    assert Trim(vat) != "";
    if |vat| == 13 {
      UpperCharVat(vat[0]);
      UpperCharVat(vat[1]);
      forall i | 2 <= i < 13 ensures IsAsciiDigit(u[i]) <==> IsAsciiDigit(vat[i]) {
        UpperCharVat(vat[i]);
      }
    }
  }

  /** A non-blank VAT number with whitespace at either end is refused: validateVAT does not trim it. */
  lemma ValidateVatUntrimmed(vat: string)
    requires !IsBlank(vat) && !IsTrimmed(vat)
    ensures !ValidateVat(vat)
  {
    ValidateVatCharacterized(vat);
  }

  /**
   * ConfigUtils.validateInvoiceNumber: falsy for the empty string, otherwise the regex. An accepted
   * number holds no whitespace, so trimming it changes nothing.
   */
  function ValidateInvoiceNumber(number: string): (r: bool)
    ensures r <==> number != [] && forall i :: 0 <= i < |number| ==> IsInvoiceNumberChar(number[i])
  {
    number != "" && MatchesInvoiceNumberRegex(number)
  }

  /** An accepted invoice number holds no whitespace, so trimming it changes nothing. */
  lemma ValidInvoiceNumberIsTrimmed(number: string)
    requires ValidateInvoiceNumber(number)
    ensures !IsBlank(number) && Trim(number) == number
  {
    assert IsInvoiceNumberChar(number[0]) && IsInvoiceNumberChar(number[|number| - 1]);
  }

  /** ConfigUtils.isLLMConfigured: the API key holds some non-whitespace character. */
  function IsLlmConfigured(apiKey: string): (r: bool)
    ensures r <==> exists i :: 0 <= i < |apiKey| && !IsSpace(apiKey[i])
  {
    apiKey != "" && Trim(apiKey) != ""
  }

  /** ConfigUtils.isDatabaseConfigured: URL and anonymous key both hold some non-whitespace character. */
  function IsDatabaseConfigured(url: string, anonKey: string): (r: bool)
    ensures r <==> !IsBlank(url) && !IsBlank(anonKey)
  {
    url != "" && anonKey != "" && Trim(url) != "" && Trim(anonKey) != ""
  }
}
