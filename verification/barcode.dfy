/** Scanner symbologies DataWedge can decode, and the decoder parameter key of each. */
module Barcode {
  import opened Wrappers

  /** One constructor per entry of the source enum, in declaration order. */
  datatype BarcodeType =
    | CODE11
    | CODE128
    | CODE39
    | EAN13
    | EAN8
    | KOREAN3OF5
    | CHINESE2OF5
    | D2OF5
    | TRIOPTIC39
    | CODE93
    | MSI
    | CODEBAR
    | UPCE0
    | UPCE1
    | UPCA
    | US4STATE
    | TLC39
    | MAILMARK
    | HANXIN
    | SIGNATURE
    | WEBCODE
    | MATRIX_2OF5
    | MATRIX_2OF5_REDUNDANCY
    | MATRIX_2OF5_REPORT_CHECK_DIGIT
    | MATRIX_2OF5_VERIFY_CHECK_DIGIT
    | I2OF5
    | I2OF5_REDUNDANCY
    | I2OF5_REPORT_CHECK_DIGIT
    | I2OF5_CONVERT_TO_EAN13
    | I2OF5_CHECK_DIGIT
    | I2OF5_SECURITY_LEVEL
    | GS1_DATABAR
    | DATAMATRIX
    | QRCODE
    | GS1_DATAMATRIX
    | GS1_QRCODE
    | PDF417
    | COMPOSITE_AB
    | COMPOSITE_C
    | MICROQR
    | AZTEC
    | MAXICODE
    | MICROPDF
    | USPOSTNET
    | USPLANET
    | AUSTRALIAN_POSTAL
    | UK_POSTAL
    | JAPANESE_POSTAL
    | CANADIAN_POSTAL
    | DUTCH_POSTAL
    | GS1_LIM_SECURITY_LEVEL

  /** The DataWedge decoder parameter key the enum entry carries. */
  function DecoderName(t: BarcodeType): string
  {
    match t
    case CODE11 => "decoder_code11"
    case CODE128 => "decoder_code128"
    case CODE39 => "decoder_code39"
    case EAN13 => "decoder_ean13"
    case EAN8 => "decoder_ean8"
    case KOREAN3OF5 => "decoder_korean_3of5"
    case CHINESE2OF5 => "decoder_chinese_2of5"
    case D2OF5 => "decoder_d2of5"
    case TRIOPTIC39 => "decoder_trioptic39"
    case CODE93 => "decoder_code93"
    case MSI => "decoder_msi"
    case CODEBAR => "decoder_codabar"
    case UPCE0 => "decoder_upce0"
    case UPCE1 => "decoder_upce1"
    case UPCA => "decoder_upca"
    case US4STATE => "decoder_us4state"
    case TLC39 => "decoder_tlc39"
    case MAILMARK => "decoder_mailmark"
    case HANXIN => "decoder_hanxin"
    case SIGNATURE => "decoder_signature"
    case WEBCODE => "decoder_webcode"
    case MATRIX_2OF5 => "decoder_matrix_2of5"
    case MATRIX_2OF5_REDUNDANCY => "decoder_matrix_2of5_redundancy"
    case MATRIX_2OF5_REPORT_CHECK_DIGIT => "decoder_matrix_2of5_report_check_digit"
    case MATRIX_2OF5_VERIFY_CHECK_DIGIT => "decoder_matrix_2of5_verify_check_digit"
    case I2OF5 => "decoder_i2of5"
    case I2OF5_REDUNDANCY => "decoder_i2of5_redundancy"
    case I2OF5_REPORT_CHECK_DIGIT => "decoder_i2of5_report_check_digit"
    case I2OF5_CONVERT_TO_EAN13 => "decoder_i2of5_convert_to_ean13"
    case I2OF5_CHECK_DIGIT => "decoder_i2of5_check_digit"
    case I2OF5_SECURITY_LEVEL => "decoder_i2of5_security_level"
    case GS1_DATABAR => "decoder_gs1_databar"
    case DATAMATRIX => "decoder_datamatrix"
    case QRCODE => "decoder_qrcode"
    case GS1_DATAMATRIX => "decoder_gs1_datamatrix"
    case GS1_QRCODE => "decoder_gs1_qrcode"
    case PDF417 => "decoder_pdf417"
    case COMPOSITE_AB => "decoder_composite_ab"
    case COMPOSITE_C => "decoder_composite_c"
    case MICROQR => "decoder_microqr"
    case AZTEC => "decoder_aztec"
    case MAXICODE => "decoder_maxicode"
    case MICROPDF => "decoder_micropdf"
    case USPOSTNET => "decoder_uspostnet"
    case USPLANET => "decoder_usplanet"
    case AUSTRALIAN_POSTAL => "decoder_australian_postal"
    case UK_POSTAL => "decoder_uk_postal"
    case JAPANESE_POSTAL => "decoder_japanese_postal"
    case CANADIAN_POSTAL => "decoder_canadian_postal"
    case DUTCH_POSTAL => "decoder_dutch_postal"
    case GS1_LIM_SECURITY_LEVEL => "decoder_gs1_lim_security_level"
  }

  /** Declaration position of an entry (Kotlin's `ordinal`). */
  function Ordinal(t: BarcodeType): nat
  {
    match t
    case CODE11 => 0
    case CODE128 => 1
    case CODE39 => 2
    case EAN13 => 3
    case EAN8 => 4
    case KOREAN3OF5 => 5
    case CHINESE2OF5 => 6
    case D2OF5 => 7
    case TRIOPTIC39 => 8
    case CODE93 => 9
    case MSI => 10
    case CODEBAR => 11
    case UPCE0 => 12
    case UPCE1 => 13
    case UPCA => 14
    case US4STATE => 15
    case TLC39 => 16
    case MAILMARK => 17
    case HANXIN => 18
    case SIGNATURE => 19
    case WEBCODE => 20
    case MATRIX_2OF5 => 21
    case MATRIX_2OF5_REDUNDANCY => 22
    case MATRIX_2OF5_REPORT_CHECK_DIGIT => 23
    case MATRIX_2OF5_VERIFY_CHECK_DIGIT => 24
    case I2OF5 => 25
    case I2OF5_REDUNDANCY => 26
    case I2OF5_REPORT_CHECK_DIGIT => 27
    case I2OF5_CONVERT_TO_EAN13 => 28
    case I2OF5_CHECK_DIGIT => 29
    case I2OF5_SECURITY_LEVEL => 30
    case GS1_DATABAR => 31
    case DATAMATRIX => 32
    case QRCODE => 33
    case GS1_DATAMATRIX => 34
    case GS1_QRCODE => 35
    case PDF417 => 36
    case COMPOSITE_AB => 37
    case COMPOSITE_C => 38
    case MICROQR => 39
    case AZTEC => 40
    case MAXICODE => 41
    case MICROPDF => 42
    case USPOSTNET => 43
    case USPLANET => 44
    case AUSTRALIAN_POSTAL => 45
    case UK_POSTAL => 46
    case JAPANESE_POSTAL => 47
    case CANADIAN_POSTAL => 48
    case DUTCH_POSTAL => 49
    case GS1_LIM_SECURITY_LEVEL => 50
  }

  const TypeCount: nat := 51

  /** The entry declared at position `k`. */
  function TypeAt(k: nat): BarcodeType
    requires k < TypeCount
  {
    match k
    case 0 => CODE11
    case 1 => CODE128
    case 2 => CODE39
    case 3 => EAN13
    case 4 => EAN8
    case 5 => KOREAN3OF5
    case 6 => CHINESE2OF5
    case 7 => D2OF5
    case 8 => TRIOPTIC39
    case 9 => CODE93
    case 10 => MSI
    case 11 => CODEBAR
    case 12 => UPCE0
    case 13 => UPCE1
    case 14 => UPCA
    case 15 => US4STATE
    case 16 => TLC39
    case 17 => MAILMARK
    case 18 => HANXIN
    case 19 => SIGNATURE
    case 20 => WEBCODE
    case 21 => MATRIX_2OF5
    case 22 => MATRIX_2OF5_REDUNDANCY
    case 23 => MATRIX_2OF5_REPORT_CHECK_DIGIT
    case 24 => MATRIX_2OF5_VERIFY_CHECK_DIGIT
    case 25 => I2OF5
    case 26 => I2OF5_REDUNDANCY
    case 27 => I2OF5_REPORT_CHECK_DIGIT
    case 28 => I2OF5_CONVERT_TO_EAN13
    case 29 => I2OF5_CHECK_DIGIT
    case 30 => I2OF5_SECURITY_LEVEL
    case 31 => GS1_DATABAR
    case 32 => DATAMATRIX
    case 33 => QRCODE
    case 34 => GS1_DATAMATRIX
    case 35 => GS1_QRCODE
    case 36 => PDF417
    case 37 => COMPOSITE_AB
    case 38 => COMPOSITE_C
    case 39 => MICROQR
    case 40 => AZTEC
    case 41 => MAXICODE
    case 42 => MICROPDF
    case 43 => USPOSTNET
    case 44 => USPLANET
    case 45 => AUSTRALIAN_POSTAL
    case 46 => UK_POSTAL
    case 47 => JAPANESE_POSTAL
    case 48 => CANADIAN_POSTAL
    case 49 => DUTCH_POSTAL
    case _ => GS1_LIM_SECURITY_LEVEL
  }

  /** `BarcodeType.values()`: every entry once, in declaration order. */
  function AllTypes(): seq<BarcodeType>
  {
    seq(TypeCount, k requires 0 <= k < TypeCount => TypeAt(k))
  }


  /** The entry at a position has that position as its ordinal. */
  lemma OrdinalOfTypeAt(k: nat)
    requires k < TypeCount
    ensures Ordinal(TypeAt(k)) == k
  {
  }

  /** Every entry sits at its ordinal. */
  lemma TypeAtOrdinal(t: BarcodeType)
    ensures Ordinal(t) < TypeCount && TypeAt(Ordinal(t)) == t
  {
    match t
    case CODE11 =>
    case CODE128 =>
    case CODE39 =>
    case EAN13 =>
    case EAN8 =>
    case KOREAN3OF5 =>
    case CHINESE2OF5 =>
    case D2OF5 =>
    case TRIOPTIC39 =>
    case CODE93 =>
    case MSI =>
    case CODEBAR =>
    case UPCE0 =>
    case UPCE1 =>
    case UPCA =>
    case US4STATE =>
    case TLC39 =>
    case MAILMARK =>
    case HANXIN =>
    case SIGNATURE =>
    case WEBCODE =>
    case MATRIX_2OF5 =>
    case MATRIX_2OF5_REDUNDANCY =>
    case MATRIX_2OF5_REPORT_CHECK_DIGIT =>
    case MATRIX_2OF5_VERIFY_CHECK_DIGIT =>
    case I2OF5 =>
    case I2OF5_REDUNDANCY =>
    case I2OF5_REPORT_CHECK_DIGIT =>
    case I2OF5_CONVERT_TO_EAN13 =>
    case I2OF5_CHECK_DIGIT =>
    case I2OF5_SECURITY_LEVEL =>
    case GS1_DATABAR =>
    case DATAMATRIX =>
    case QRCODE =>
    case GS1_DATAMATRIX =>
    case GS1_QRCODE =>
    case PDF417 =>
    case COMPOSITE_AB =>
    case COMPOSITE_C =>
    case MICROQR =>
    case AZTEC =>
    case MAXICODE =>
    case MICROPDF =>
    case USPOSTNET =>
    case USPLANET =>
    case AUSTRALIAN_POSTAL =>
    case UK_POSTAL =>
    case JAPANESE_POSTAL =>
    case CANADIAN_POSTAL =>
    case DUTCH_POSTAL =>
    case GS1_LIM_SECURITY_LEVEL =>
  }

  /** Every entry occurs in `AllTypes()`, at its ordinal. */
  lemma AllTypesEnumerates(t: BarcodeType)
    ensures Ordinal(t) < |AllTypes()| && AllTypes()[Ordinal(t)] == t
  {
    TypeAtOrdinal(t);
  }

  /** `AllTypes()` holds no entry twice: position `k` holds the entry whose ordinal is `k`. */
  lemma AllTypesOrdinal(k: nat)
    requires k < |AllTypes()|
    ensures Ordinal(AllTypes()[k]) == k
  {
    OrdinalOfTypeAt(k);
  }

  /** `find { it.decoderName == name }` over `types`: an entry of `types` carrying `name`, if any. */
  function FindByName(types: seq<BarcodeType>, name: string): (r: Option<BarcodeType>)
    ensures r.Some? ==> r.value in types && DecoderName(r.value) == name
    ensures r.None? ==> forall t :: t in types ==> DecoderName(t) != name
    ensures r.Some? ==>
      exists i :: 0 <= i < |types| && types[i] == r.value && (forall j :: 0 <= j < i ==> DecoderName(types[j]) != name)
  {
    if types == [] then None
    else if DecoderName(types[0]) == name then Some(types[0])
    else FindByName(types[1..], name)
  }

  /** The plugin's lookup of a requested format: the first entry, in declaration order, whose key is `name`. */
  function FromDecoderName(name: string): Option<BarcodeType>
  {
    FindByName(AllTypes(), name)
  }

  /** The lookup succeeds exactly on decoder keys, and what it finds carries the key it was given. */
  lemma FromDecoderNameSound(name: string)
    ensures FromDecoderName(name).Some? <==> exists t :: DecoderName(t) == name
    ensures FromDecoderName(name).Some? ==> DecoderName(FromDecoderName(name).value) == name
  {
    if r :| DecoderName(r) == name {
      AllTypesEnumerates(r);
    }
  }

  /**
   * The plugin's `names.map { lookup!! }.toSet()`: the set of entries the names denote,
   * or None when some name is not a decoder key (where the plugin's `!!` throws).
   */
  function ParseBarcodes(names: seq<string>): (r: Option<set<BarcodeType>>)
    ensures r.Some? <==> forall n :: n in names ==> FromDecoderName(n).Some?
    ensures r.Some? ==> forall t :: t in r.value ==> DecoderName(t) in names
    ensures r.Some? ==> forall n :: n in names ==> exists t :: t in r.value && DecoderName(t) == n
  {
    if names == [] then Some({})
    else
      match FromDecoderName(names[0])
      case None => None
      case Some(t) =>
        match ParseBarcodes(names[1..])
        case None => None
        case Some(rest) =>
          ParsedCons(names, t, rest);
          Some({t} + rest)
  }

  lemma ParsedCons(names: seq<string>, t: BarcodeType, rest: set<BarcodeType>)
    requires names != [] && DecoderName(t) == names[0]
    requires forall u :: u in rest ==> DecoderName(u) in names[1..]
    requires forall n :: n in names[1..] ==> exists u :: u in rest && DecoderName(u) == n
    ensures forall u :: u in {t} + rest ==> DecoderName(u) in names
    ensures forall n :: n in names ==> exists u :: u in {t} + rest && DecoderName(u) == n
  {
    forall n | n in names
      ensures exists u :: u in {t} + rest && DecoderName(u) == n
    {
      if n != names[0] {
        assert n in names[1..];
      }
    }
  }
}
