/** Display names of couriers (src/utils/formatters.ts): a fixed table for the
    common codes, a family of "APACZKA_..." codes for couriers booked through
    the Apaczka broker, and a fallback that turns underscores into spaces. */
module Formatters {
  import opened Text

  const UnknownCourier := "Nieznany kurier"
  const ApaczkaPrefix := "APACZKA_"

  /** The exact-match table. */
  function NameMap(): map<string, string> {
    map[
      "TBA" := "Do ustalenia (TBA)",
      "SIODEMKA" := "Siódemka",
      "UPS" := "UPS",
      "GLS" := "GLS",
      "DPD" := "DPD",
      "DHL" := "DHL",
      "FEDEX" := "FedEx",
      "POCZTEX" := "Pocztex",
      "POCZTEX48" := "Pocztex 48h",
      "INPOST" := "InPost",
      "GEIS" := "Geis",
      "AMBRO" := "Ambro Express",
      "SUUS" := "Rohlig Suus"
    ]
  }

  /** The name of an Apaczka service once the prefix is gone and underscores are
      spaces: InPost is recognised before DHL, and DHL before UPS. */
  function ApaczkaName(clean: string): string {
    if Includes(clean, "INPOST") then "InPost (via Apaczka)"
    else if Includes(clean, "DHL") then "DHL (via Apaczka)"
    else if Includes(clean, "UPS") then "UPS " + ReplaceFirst(clean, "UPS ", "")
    else clean
  }

  /** `formatCourierName(rawName)`. */
  function FormatCourierName(raw: string): (r: string)
    ensures raw == "" ==> r == UnknownCourier
    ensures raw != "" && raw in NameMap() ==> r == NameMap()[raw]
    ensures StartsWith(raw, ApaczkaPrefix) ==>
              r == ApaczkaName(ReplaceChar(raw[|ApaczkaPrefix|..], '_', ' '))
    ensures raw != "" && raw !in NameMap() && !StartsWith(raw, ApaczkaPrefix) ==>
              r == ReplaceChar(raw, '_', ' ')
    ensures '_' !in r
  {
    if raw == "" then UnknownCourier
    else if raw in NameMap() then
      NoUnderscoreInTable(raw);
      TableKeyNotApaczka(raw);
      NameMap()[raw]
    else if StartsWith(raw, ApaczkaPrefix) then
      var cleanName := ReplaceChar(ReplaceFirst(raw, ApaczkaPrefix, ""), '_', ' ');
      PrefixRemoved(raw);
      ReplaceCharRemoves(raw[|ApaczkaPrefix|..], '_', ' ');
      ApaczkaName(cleanName)
    else
      ReplaceCharRemoves(raw, '_', ' ');
      ReplaceChar(raw, '_', ' ')
  }

  lemma NoUnderscoreInTable(k: string)
    requires k in NameMap()
    ensures '_' !in NameMap()[k]
  {
  }

  /** No key of the exact-match table is an Apaczka code. */
  lemma TableKeyNotApaczka(k: string)
    requires k in NameMap()
    ensures !StartsWith(k, ApaczkaPrefix)
  {
    assert k[0] != 'A' || |k| < |ApaczkaPrefix|;
    assert |k| >= |ApaczkaPrefix| ==> k[..|ApaczkaPrefix|][0] == k[0];
  }

  /** For an Apaczka code, `replace("APACZKA_", "")` removes exactly the
      leading prefix. */
  lemma PrefixRemoved(raw: string)
    requires StartsWith(raw, ApaczkaPrefix)
    ensures ReplaceFirst(raw, ApaczkaPrefix, "") == raw[|ApaczkaPrefix|..]
  {
    assert OccursAt(raw, ApaczkaPrefix, 0);
    assert raw[..0] == "";
  }

  /** The Apaczka branch never returns an underscore: the fixed names have
      none, and the UPS case is built from text whose underscores are gone. */
  lemma ApaczkaNameNoUnderscore(clean: string)
    requires '_' !in clean
    ensures '_' !in ApaczkaName(clean)
  {
  }

  /** A code outside the table written without underscores is shown as it
      is (it cannot be an Apaczka code, whose prefix has one). */
  lemma PlainNameKept(raw: string)
    requires raw != "" && raw !in NameMap() && '_' !in raw
    ensures FormatCourierName(raw) == raw
  {
    if |raw| >= |ApaczkaPrefix| {
      assert raw[..|ApaczkaPrefix|][7] == raw[7];
    }
    assert ReplaceChar(raw, '_', ' ') == raw;
  }

  /** An Apaczka code whose cleaned service name mentions none of InPost, DHL
      or UPS is shown as that cleaned name, whatever the table holds. */
  lemma ApaczkaOtherService(service: string)
    requires var clean := ReplaceChar(service, '_', ' ');
             !Includes(clean, "INPOST") && !Includes(clean, "DHL") && !Includes(clean, "UPS")
    ensures FormatCourierName(ApaczkaPrefix + service) == ReplaceChar(service, '_', ' ')
  {
    var raw := ApaczkaPrefix + service;
    assert raw[..|ApaczkaPrefix|] == ApaczkaPrefix;
    assert raw[|ApaczkaPrefix|..] == service;
  }
}
