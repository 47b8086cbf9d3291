/**
 * The VIN decoder (`src/services/vinDecoder.ts`): a 17-character identifier is split into
 * the WMI (positions 1-3), the VDS (positions 4-8), the model-year character (position 10)
 * and the production sequence number (positions 12-17), following ISO 3779, and each part
 * is looked up in a fixed table.
 */
module VinDecoder {
  import opened Text

  /** The `type` of a decoded VIN. */
  datatype VehicleType = Auto | Moto | UnknownType

  /** `IDecodedVin`. */
  datatype DecodedVin = DecodedVin(
    vin: string,
    valid: bool,
    manufacturer: string,
    country: string,
    year: string,
    kind: VehicleType,
    bodyStyle: string,
    engineType: string,
    serialNumber: string)

  datatype Maker = Maker(manufacturer: string, country: string)

  /** `WMI_MAP`: world manufacturer identifier to manufacturer and country. */
  const WmiMap: map<string, Maker> := map[
    "JHM" := Maker("Honda", "Japon"),
    "JTD" := Maker("Toyota", "Japon"),
    "JTE" := Maker("Toyota", "Japon"),
    "JTH" := Maker("Lexus", "Japon"),
    "JN1" := Maker("Nissan", "Japon"),
    "JF1" := Maker("Subaru", "Japon"),
    "JMZ" := Maker("Mazda", "Japon"),
    "JS1" := Maker("Suzuki", "Japon"),
    "JYA" := Maker("Yamaha", "Japon"),
    "JKA" := Maker("Kawasaki", "Japon"),
    "WBA" := Maker("BMW", "Allemagne"),
    "WBS" := Maker("BMW M", "Allemagne"),
    "WDB" := Maker("Mercedes-Benz", "Allemagne"),
    "WDD" := Maker("Mercedes-Benz", "Allemagne"),
    "WDC" := Maker("Mercedes-Benz", "Allemagne"),
    "WAU" := Maker("Audi", "Allemagne"),
    "WVW" := Maker("Volkswagen", "Allemagne"),
    "WP0" := Maker("Porsche", "Allemagne"),
    "1G1" := Maker("Chevrolet", "\U{C9}tats-Unis"),
    "1FA" := Maker("Ford", "\U{C9}tats-Unis"),
    "1FT" := Maker("Ford Truck", "\U{C9}tats-Unis"),
    "1HD" := Maker("Harley-Davidson", "\U{C9}tats-Unis"),
    "2HM" := Maker("Hyundai", "\U{C9}tats-Unis"),
    "3FA" := Maker("Ford (Mexico)", "Mexique"),
    "KMH" := Maker("Hyundai", "Cor\U{E9}e du Sud"),
    "KNA" := Maker("Kia", "Cor\U{E9}e du Sud"),
    "ZAR" := Maker("Alfa Romeo", "Italie"),
    "ZFF" := Maker("Ferrari", "Italie"),
    "ZDM" := Maker("Ducati", "Italie"),
    "ZAM" := Maker("Maserati", "Italie"),
    "VF1" := Maker("Renault", "France"),
    "VF3" := Maker("Peugeot", "France"),
    "VF7" := Maker("Citro\U{EB}n", "France"),
    "SAJ" := Maker("Jaguar", "Royaume-Uni"),
    "SAL" := Maker("Land Rover", "Royaume-Uni"),
    "SCF" := Maker("Aston Martin", "Royaume-Uni"),
    "SMT" := Maker("Triumph", "Royaume-Uni"),
    "VBK" := Maker("KTM", "Autriche"),
    "MD2" := Maker("Bajaj", "Inde"),
    "MBH" := Maker("Hero", "Inde"),
    "MA3" := Maker("Suzuki India", "Inde"),
    "MAK" := Maker("Honda India", "Inde"),
    "ME1" := Maker("Royal Enfield", "Inde"),
    "MBL" := Maker("TVS", "Inde")
  ]

  /** `MOTO_WMIS`: the manufacturers whose vehicles are motorcycles. */
  const MotoWmis: set<string> := {"JYA", "JKA", "JS1", "ZDM", "SMT", "VBK", "MD2", "MBH", "ME1", "MBL", "1HD"}

  /** `YEAR_MAP[c] || ''`: the model year of the 10th character; the 30-year cycle 2010-2039. */
  function YearOf(c: char): (y: string)
    ensures y == "" <==> !(('A' <= c <= 'Z' && c !in "IOQUZ") || ('1' <= c <= '9'))
  {
    match c
    case 'A' => "2010" case 'B' => "2011" case 'C' => "2012" case 'D' => "2013" case 'E' => "2014"
    case 'F' => "2015" case 'G' => "2016" case 'H' => "2017" case 'J' => "2018" case 'K' => "2019"
    case 'L' => "2020" case 'M' => "2021" case 'N' => "2022" case 'P' => "2023" case 'R' => "2024"
    case 'S' => "2025" case 'T' => "2026" case 'V' => "2027" case 'W' => "2028" case 'X' => "2029"
    case 'Y' => "2030" case '1' => "2031" case '2' => "2032" case '3' => "2033"
    case '4' => "2034" case '5' => "2035" case '6' => "2036" case '7' => "2037"
    case '8' => "2038" case '9' => "2039"
    case _ => ""
  }

  /**
   * One character of `/^[A-HJ-NPR-Z0-9]{17}$/i`: a digit or a letter other than I, O and Q,
   * in either case because of the `i` flag.
   */
  predicate IsVinChar(c: char) {
    || ('0' <= c <= '9')
    || ('A' <= c <= 'Z' && c != 'I' && c != 'O' && c != 'Q')
    || ('a' <= c <= 'z' && c != 'i' && c != 'o' && c != 'q')
  }

  /** `isValidVin`. */
  predicate IsValidVin(v: string) {
    |v| == 17 && forall i :: 0 <= i < |v| ==> IsVinChar(v[i])
  }

  /** `vin.toUpperCase().trim()`. */
  function Normalise(vin: string): string {
    Trim(ToUpper(vin))
  }

  /** The body style hint: a motorcycle, else the first of T/K, W/V, C/S found in the VDS, else a saloon. */
  function BodyStyle(isMoto: bool, vds: string): string {
    if isMoto then "Moto"
    else if Contains(vds, "T") || Contains(vds, "K") then "SUV / Crossover"
    else if Contains(vds, "W") || Contains(vds, "V") then "Break / Wagon"
    else if Contains(vds, "C") || Contains(vds, "S") then "Coup\U{E9} / Sport"
    else "Berline"
  }

  /** The engine hint: diesel for D/L in the VDS, else hybrid for E/H, else petrol. */
  function EngineType(vds: string): string {
    if Contains(vds, "D") || Contains(vds, "L") then "Diesel"
    else if Contains(vds, "E") || Contains(vds, "H") then "Hybride / \U{C9}lectrique"
    else "Essence"
  }

  /** `decodeVin`: the input is normalised, then validated and decoded. */
  function DecodeVin(vin: string): (d: DecodedVin)
    ensures d.vin == Normalise(vin)
  {
    Decode(Normalise(vin))
  }

  /** The decoding of an already normalised string `v`. */
  function Decode(v: string): (d: DecodedVin)
    ensures d.vin == v
    ensures d.valid <==> IsValidVin(v)
    ensures !d.valid ==> d == DecodedVin(v, false, "", "", "", UnknownType, "", "", "")
    ensures d.valid ==> d.serialNumber == v[11..] && |d.serialNumber| == 6
    ensures d.valid ==> d.year == YearOf(v[9])
    ensures d.valid ==> (d.kind == Moto <==> v[..3] in MotoWmis) && d.kind != UnknownType
    ensures d.kind == Moto ==> d.bodyStyle == "Moto"
    ensures d.valid ==> d.bodyStyle == BodyStyle(d.kind == Moto, v[3..8]) && d.engineType == EngineType(v[3..8])
  {
    if !IsValidVin(v) then DecodedVin(v, false, "", "", "", UnknownType, "", "", "")
    else
      var wmi := v[..3];
      var info := if wmi in WmiMap then WmiMap[wmi] else Maker("Inconnu", "Inconnu");
      var isMoto := wmi in MotoWmis;
      var vds := v[3..8];
      DecodedVin(v, true, info.manufacturer, info.country, YearOf(v[9]),
                 if isMoto then Moto else Auto, BodyStyle(isMoto, vds), EngineType(vds), v[11..])
  }

  /**
   * On the normalised string the `i` flag changes nothing: the input is valid exactly when it
   * has 17 characters, each a digit or an upper-case letter other than I, O and Q.
   */
  lemma ValidIffAlphabet(vin: string)
    ensures var v := Normalise(vin);
      IsValidVin(v) <==>
        |v| == 17 && forall i :: 0 <= i < |v| ==> ('0' <= v[i] <= '9') || ('A' <= v[i] <= 'Z' && v[i] !in "IOQ")
  {
    ToUpperNoAsciiLower(vin);
    TrimKeeps(ToUpper(vin), c => !('a' <= c <= 'z'));
  }

  /** The manufacturer and country come from the WMI table, `Inconnu` for an unknown WMI. */
  lemma ManufacturerFromWmi(v: string)
    requires IsValidVin(v)
    ensures var d := Decode(v);
      && (v[..3] in WmiMap ==> d.manufacturer == WmiMap[v[..3]].manufacturer && d.country == WmiMap[v[..3]].country)
      && (v[..3] !in WmiMap ==> d.manufacturer == "Inconnu" && d.country == "Inconnu")
  {
  }

  /** Every motorcycle WMI is in the manufacturer table, so a motorcycle never decodes as `Inconnu`. */
  lemma MotoWmisKnown()
    ensures MotoWmis <= WmiMap.Keys
  {
  }

  /**
   * The VDS letters decide the body of a car with this precedence: T or K, then W or V,
   * then C or S, else a saloon.
   */
  lemma BodyStylePrecedence(isMoto: bool, vds: string)
    ensures BodyStyle(isMoto, vds) == "Berline" <==> !isMoto && forall c :: c in "TKWVCS" ==> c !in vds
    ensures !isMoto && ('T' in vds || 'K' in vds) ==> BodyStyle(isMoto, vds) == "SUV / Crossover"
    ensures !isMoto && 'T' !in vds && 'K' !in vds && ('W' in vds || 'V' in vds) ==> BodyStyle(isMoto, vds) == "Break / Wagon"
    ensures !isMoto && 'T' !in vds && 'K' !in vds && 'W' !in vds && 'V' !in vds && ('C' in vds || 'S' in vds) ==>
      BodyStyle(isMoto, vds) == "Coup\U{E9} / Sport"
  {
    forall c | c in "TKWVCS" {
      ContainsChar(vds, c);
    }
  }

  /** D or L in the VDS means diesel, else E or H means hybrid, else petrol. */
  lemma EngineTypePrecedence(vds: string)
    ensures EngineType(vds) == "Essence" <==> forall c :: c in "DLEH" ==> c !in vds
    ensures 'D' in vds || 'L' in vds ==> EngineType(vds) == "Diesel"
    ensures 'D' !in vds && 'L' !in vds && ('E' in vds || 'H' in vds) ==> EngineType(vds) == "Hybride / \U{C9}lectrique"
  {
    forall c | c in "DLEH" {
      ContainsChar(vds, c);
    }
  }

  /** Normalising is idempotent. */
  lemma NormaliseIdempotent(vin: string)
    ensures Normalise(Normalise(vin)) == Normalise(vin)
  {
    var u := ToUpper(vin);
    ToUpperTrim(u);
    ToUpperIdempotent(vin);
    TrimIdempotent(u);
  }

  /** Decoding the normalised VIN again gives the same result. */
  lemma DecodeIdempotent(vin: string)
    ensures DecodeVin(DecodeVin(vin).vin) == DecodeVin(vin)
  {
    NormaliseIdempotent(vin);
  }
}
