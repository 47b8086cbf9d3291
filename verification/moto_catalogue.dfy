/** The fixed option lists of the motorcycle finder block (`src/components/blocks/BlockFinderMoto.tsx`). */
module MotoCatalogue {
  import opened ModelTable

  /** `motoModelsByBrand`, in the order its keys were written. */
  function ModelsByBrand(): Table {
    [
    ("Honda", ["CBR 600RR", "CBR 1000RR", "CB500F", "CB650R", "CRF 250L", "CRF 450R", "Africa Twin", "Forza 350", "PCX 125", "SH 150", "X-ADV"]),
    ("Yamaha", ["MT-07", "MT-09", "YZF-R1", "YZF-R3", "YZF-R6", "XSR 700", "T\U{e9}n\U{e9}r\U{e9} 700", "NMAX 125", "XMAX 300", "Tracer 9", "FZ-S"]),
    ("Suzuki", ["GSX-R750", "GSX-R1000", "V-Strom 650", "V-Strom 1050", "SV650", "Hayabusa", "Burgman 400", "DR-Z400", "GSX-S750"]),
    ("Kawasaki", ["Ninja ZX-6R", "Ninja ZX-10R", "Ninja 400", "Z650", "Z900", "Versys 650", "KLR 650", "Vulcan S", "KX 450"]),
    ("BMW", ["R1250 GS", "R1250 RT", "S1000RR", "S1000XR", "F850 GS", "F900R", "G310R", "G310 GS", "C400X", "CE 04"]),
    ("Ducati", ["Panigale V4", "Panigale V2", "Monster", "Multistrada V4", "Scrambler", "Diavel", "Streetfighter V4", "Hypermotard 950"]),
    ("KTM", ["Duke 390", "Duke 790", "Duke 890", "RC 390", "450 EXC-F", "690 Enduro", "1290 Super Duke", "1290 Super Adventure", "890 Adventure"]),
    ("Harley-Davidson", ["Sportster S", "Iron 883", "Fat Boy", "Road Glide", "Street Glide", "Road King", "Pan America", "Nightster", "Breakout"]),
    ("Triumph", ["Street Triple", "Speed Triple", "Tiger 900", "Tiger 1200", "Trident 660", "Bonneville T120", "Scrambler 1200", "Rocket 3"]),
    ("Aprilia", ["RSV4", "RS 660", "Tuono V4", "Tuono 660", "Tuareg 660", "SR GT 125"]),
    ("TVS", ["Apache RTR 200", "Apache RTR 160", "Apache RR 310", "Ntorq 125", "Jupiter 125", "Raider 125"]),
    ("Bajaj", ["Pulsar NS200", "Pulsar RS200", "Pulsar 220F", "Dominar 400", "Avenger 220", "CT 125"]),
    ("Hero", ["Xtreme 160R", "Xpulse 200", "Glamour 125", "Splendor Plus", "HF Deluxe", "Destini 125"]),
    ("Royal Enfield", ["Classic 350", "Meteor 350", "Hunter 350", "Himalayan", "Continental GT 650", "Interceptor 650", "Super Meteor 650"]),
    ("Piaggio", ["MP3 500", "Beverly 400", "Medley 150", "Liberty 150"]),
    ("Vespa", ["GTS 300", "Primavera 150", "Sprint 150", "Elettrica"])
    ]
  }

  /** `motoPartTypes`, the part-type options. */
  function MotoPartTypes(): seq<string> {
    ["Moteur & Transmission", "Freins & Plaquettes", "Filtres (Air, Huile, Carburant)",
    "Pneus & Jantes", "Cha\U{ee}ne & Pignons", "\U{c9}clairage & \U{c9}lectrique",
    "Car\U{e9}nage & Carrosserie", "\U{c9}chappement", "Suspension", "Embrayage", "Batterie",
     "Accessoires"]
  }

  /** Every brand of the table is named and offers at least one model. */
  lemma CatalogueComplete()
    ensures Complete(ModelsByBrand())
  {
  }

  /** Every brand offered in the brand selector has models to choose from. */
  lemma OfferedBrandsHaveModels(brand: string)
    requires brand in SortedBrands(ModelsByBrand())
    ensures |AvailableModels(ModelsByBrand(), brand)| > 0
  {
    CatalogueComplete();
    ModelTable.OfferedBrandsHaveModels(ModelsByBrand(), brand);
  }
}
