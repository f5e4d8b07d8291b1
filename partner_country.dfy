/**
 * The partner-country page: the route's `country` slug is looked up in a
 * table of nine countries; a missing or unknown slug shows a "not found"
 * view, a known one shows the country's flag and name, its education, visa
 * and accommodation texts, and one tile per partner university.
 */
module PartnerCountry {
  import opened JsSemantics
  import Header

  datatype University = University(name: string)

  /** One record of the country table. */
  datatype Country = Country(
    name: string,
    flag: string,
    education: string,
    visa: string,
    accommodation: string,
    universities: seq<University>)

  /** The country table, keyed by route slug (its nine own keys). */
  const CountryTable: map<string, Country> := map[
    "singapore" := Country(
      "Singapore",
      "\U{1F1F8}\U{1F1EC}",
      "Singapore is a prominent education global hub in Asia and is offering a well-rounded experience encompassing both academic rigor and cultural immersion. Courses are primarily conducted in English, making it accessible for a wide range of international students.",
      "International students studying in Singapore must obtain an In-Principle Approval (IPA) letter from the Immigration & Checkpoints Authority (ICA) before entering Singapore to pursue their studies.",
      "There are a wide range of apartment types available, including HDB flats, condominiums, serviced apartments, and studio units. Twin-sharing room in HDB flats typically cost between S$700 to S$1,100 per month, while a single condo room ranges from S$1,200 to S$2,000 per month.",
      [University("PSB Academy"),
       University("KAPLAN"),
       University("Singapore Institute of Management"),
       University("Raffles College of Higher Education"),
       University("AMITY Global Institute"),
       University("Curtin Singapore"),
       University("Nanyang Institute of Management"),
       University("MDIS"),
       University("ERC Institute"),
       University("One World International School"),
       University("Insworld Institute"),
       University("Academies Australasia College"),
       University("Marketing Institute of Singapore"),
       University("NAFA")]),
    "uk" := Country(
      "United Kingdom",
      "\U{1F1EC}\U{1F1E7}",
      "The United Kingdom is home to some of the world's most prestigious universities, including Oxford and Cambridge. UK degrees are recognized globally and offer excellent career prospects. The education system emphasizes critical thinking, research, and independent study.",
      "International students need a Student Visa (formerly Tier 4) to study in the UK. You'll need a Confirmation of Acceptance for Studies (CAS) from your university, proof of funds, and English language proficiency.",
      "Options include university halls of residence, private student accommodation, and shared housing. University accommodation costs range from £100-£250 per week, while private rentals vary by city, with London being the most expensive.",
      [University("University of Oxford"),
       University("University of Cambridge"),
       University("Imperial College London"),
       University("University College London (UCL)"),
       University("London School of Economics"),
       University("University of Edinburgh"),
       University("King's College London"),
       University("University of Manchester"),
       University("University of Bristol"),
       University("University of Warwick")]),
    "australia" := Country(
      "Australia",
      "\U{1F1E6}\U{1F1FA}",
      "Australia offers world-class education with 7 universities in the global top 100. Known for innovative research and practical learning approaches. The country provides a multicultural environment with a high quality of life.",
      "Students need a Student Visa (subclass 500). Requirements include enrollment confirmation (CoE), Genuine Temporary Entrant statement, health insurance (OSHC), and proof of financial capacity.",
      "Options include on-campus housing, homestays, and private rentals. Expect to pay AUD 150-350 per week for shared accommodation, with major cities like Sydney and Melbourne being more expensive.",
      [University("University of Melbourne"),
       University("University of Sydney"),
       University("University of Queensland"),
       University("Monash University"),
       University("Australian National University"),
       University("University of New South Wales"),
       University("University of Western Australia"),
       University("University of Adelaide"),
       University("Queensland University of Technology"),
       University("Curtin University")]),
    "south-korea" := Country(
      "South Korea",
      "\U{1F1F0}\U{1F1F7}",
      "South Korea is rapidly becoming a popular study destination with excellent universities and a unique blend of tradition and modernity. Many programs are taught in English, and the country offers cutting-edge technology and research facilities.",
      "You need a D-2 Student Visa for degree programs. Required documents include admission letter, financial proof, health certificate, and valid passport. The visa allows part-time work during studies.",
      "University dormitories are affordable (₩300,000-600,000/month). Off-campus options include goshiwons (small rooms), one-room apartments, and shared housing. Seoul is more expensive than other cities.",
      [University("Seoul National University"),
       University("KAIST"),
       University("Yonsei University"),
       University("Korea University"),
       University("POSTECH"),
       University("Sungkyunkwan University"),
       University("Hanyang University"),
       University("Ewha Womans University"),
       University("Sogang University"),
       University("Kyung Hee University")]),
    "usa" := Country(
      "USA",
      "\U{1F1FA}\U{1F1F8}",
      "The United States hosts the largest number of international students worldwide. American universities lead in research and innovation, offering flexible curricula and extensive networking opportunities. The diverse campus life enriches the educational experience.",
      "F-1 Student Visa is required for academic studies. You need an I-20 form from your university, SEVIS fee payment, financial proof, and successful visa interview at the US embassy.",
      "On-campus housing ranges from $5,000-$15,000 per year. Off-campus apartments vary greatly by location. Major cities like New York and San Francisco are significantly more expensive than smaller college towns.",
      [University("Harvard University"),
       University("MIT"),
       University("Stanford University"),
       University("Yale University"),
       University("Princeton University"),
       University("Columbia University"),
       University("University of Chicago"),
       University("UCLA"),
       University("UC Berkeley"),
       University("NYU")]),
    "china" := Country(
      "China",
      "\U{1F1E8}\U{1F1F3}",
      "China offers affordable, quality education with increasing programs taught in English. The country provides excellent opportunities to learn Mandarin and experience rich cultural heritage. Chinese universities are rising rapidly in global rankings.",
      "X1 visa for studies over 180 days, X2 for shorter periods. Requirements include JW201/JW202 form, admission notice, health certificate, and passport. You'll need to register at the local police station upon arrival.",
      "University dormitories are economical (¥800-1,500/month). Off-campus options are available in major cities. Cost of living is generally lower than Western countries, making it an affordable study destination.",
      [University("Tsinghua University"),
       University("Peking University"),
       University("Fudan University"),
       University("Shanghai Jiao Tong University"),
       University("Zhejiang University"),
       University("Nanjing University"),
       University("University of Science and Technology of China"),
       University("Wuhan University"),
       University("Sun Yat-sen University"),
       University("Harbin Institute of Technology")]),
    "switzerland" := Country(
      "Switzerland",
      "\U{1F1E8}\U{1F1ED}",
      "Switzerland is renowned for hospitality management, business, and sciences. Swiss universities consistently rank among the world's best. The multilingual environment and central European location provide unique international exposure.",
      "Non-EU students need a National Visa (D visa) for studies over 90 days. Requirements include admission confirmation, financial proof (CHF 21,000/year minimum), and health insurance coverage.",
      "University housing is limited; most students rent privately. Expect CHF 500-900/month for a room in a shared apartment. Cities like Zurich and Geneva have higher living costs.",
      [University("ETH Zurich"),
       University("EPFL"),
       University("University of Zurich"),
       University("University of Geneva"),
       University("University of Bern"),
       University("University of Basel"),
       University("University of Lausanne"),
       University("École hôtelière de Lausanne"),
       University("University of St. Gallen"),
       University("University of Fribourg")]),
    "canada" := Country(
      "Canada",
      "\U{1F1E8}\U{1F1E6}",
      "Canada offers high-quality education at competitive tuition rates. Known for being welcoming to international students with excellent post-study work opportunities. The country provides a safe, multicultural environment with high quality of life.",
      "Study Permit is required for programs over 6 months. You need acceptance letter, proof of funds (CAD 10,000+/year plus tuition), and may require biometrics. Allows part-time work during studies.",
      "University residences cost CAD 8,000-15,000/year. Off-campus housing varies: CAD 600-1,500/month for shared apartments. Toronto and Vancouver are the most expensive cities.",
      [University("University of Toronto"),
       University("McGill University"),
       University("University of British Columbia"),
       University("University of Alberta"),
       University("McMaster University"),
       University("University of Montreal"),
       University("University of Waterloo"),
       University("Western University"),
       University("Queen's University"),
       University("University of Calgary")]),
    "vietnam" := Country(
      "Vietnam",
      "\U{1F1FB}\U{1F1F3}",
      "Vietnam is emerging as an affordable study destination with improving education quality. The country offers unique cultural experiences and growing international programs. Vietnamese universities are increasingly partnering with Western institutions.",
      "Student visa (DH) is required for international students. You need admission letter, valid passport, health certificate, and proof of financial support. The visa can be extended during your study period.",
      "Very affordable with dormitories from $50-100/month. Private apartments in cities like Hanoi and Ho Chi Minh City range from $200-500/month. Overall cost of living is among the lowest in Asia.",
      [University("Vietnam National University"),
       University("Hanoi University"),
       University("Ho Chi Minh City University of Technology"),
       University("Foreign Trade University"),
       University("Diplomatic Academy of Vietnam"),
       University("RMIT Vietnam"),
       University("FPT University"),
       University("VinUniversity"),
       University("Fulbright University Vietnam"),
       University("University of Economics Ho Chi Minh City")])
  ]

  /** A university tile: the first character of the name, then the name. */
  datatype Tile = Tile(initial: string, name: string)

  function TileOf(u: University): (t: Tile)
    ensures t.name == u.name
    ensures u.name != "" ==> t.initial == [u.name[0]]
    ensures u.name == "" ==> t.initial == ""
  {
    Tile(CharAt(u.name, 0), u.name)
  }

  /** `universities.map(...)`: one tile per university, in list order. */
  function Tiles(us: seq<University>): (ts: seq<Tile>)
    ensures |ts| == |us|
    ensures forall i :: 0 <= i < |us| ==> ts[i] == TileOf(us[i])
  {
    if us == [] then [] else [TileOf(us[0])] + Tiles(us[1..])
  }

  /** The two views the page renders. */
  datatype Page =
    | NotFound(heading: string, message: string)
    | CountryPage(flag: string, name: string, education: string, visa: string, accommodation: string,
                  partnersHeading: string, tiles: seq<Tile>)

  const NotFoundPage := NotFound("Country not found", "Please select a valid study destination.")

  /** The page for the route parameter `country` (absent when the route carries none). */
  function Render(country: Option<string>): (page: Page)
    ensures page.NotFound? <==> !Truthy(country) || country.value !in CountryTable
    ensures page.NotFound? ==> page == NotFoundPage
    ensures page.CountryPage? ==>
              var c := CountryTable[country.value];
              && page.flag == c.flag && page.name == c.name
              && page.education == c.education && page.visa == c.visa && page.accommodation == c.accommodation
              && page.partnersHeading == "Our University Partners in " + c.name
              && |page.tiles| == |c.universities|
              && forall i :: 0 <= i < |c.universities| ==>
                   page.tiles[i].name == c.universities[i].name && page.tiles[i].initial == CharAt(c.universities[i].name, 0)
  {
    if Truthy(country) && country.value in CountryTable then
      var c := CountryTable[country.value];
      CountryPage(c.flag, c.name, c.education, c.visa, c.accommodation, "Our University Partners in " + c.name,
                  Tiles(c.universities))
    else NotFoundPage
  }

  /** The table's own keys. */
  lemma TableKeys()
    ensures CountryTable.Keys ==
              {"singapore", "uk", "australia", "south-korea", "usa", "china", "switzerland", "canada", "vietnam"}
  {
  }

  /** Each slug of the header's partner links names a country whose name is the link's label. */
  lemma {:induction false} HeaderLinkNames()
    ensures forall i :: 0 <= i < |Header.PartnerCountries| ==>
              StartsWith(Header.PartnerCountries[i].path, Header.PartnerPathPrefix)
    ensures var slugs := Header.PartnerSlugs(Header.PartnerCountries);
            forall i :: 0 <= i < |slugs| ==>
              slugs[i] in CountryTable && CountryTable[slugs[i]].name == Header.PartnerCountries[i].name
  {
    Header.HeaderSlugs();
    TableKeys();
    assert CountryTable["singapore"].name == "Singapore";
    assert CountryTable["uk"].name == "United Kingdom";
    assert CountryTable["australia"].name == "Australia";
    assert CountryTable["south-korea"].name == "South Korea";
    assert CountryTable["usa"].name == "USA";
    assert CountryTable["china"].name == "China";
    assert CountryTable["switzerland"].name == "Switzerland";
    assert CountryTable["canada"].name == "Canada";
    assert CountryTable["vietnam"].name == "Vietnam";
  }

  /** The table's keys are exactly the slugs of the header's partner links. */
  lemma {:induction false} HeaderSlugsAreKeys()
    ensures forall i :: 0 <= i < |Header.PartnerCountries| ==>
              StartsWith(Header.PartnerCountries[i].path, Header.PartnerPathPrefix)
    ensures forall k :: k in CountryTable <==> k in Header.PartnerSlugs(Header.PartnerCountries)
  {
    Header.HeaderSlugs();
    TableKeys();
  }

  /** Following any partner link in the header renders that country's page, under the link's own label. */
  lemma {:induction false} HeaderLinksResolve()
    ensures forall i :: 0 <= i < |Header.PartnerCountries| ==>
              StartsWith(Header.PartnerCountries[i].path, Header.PartnerPathPrefix)
    ensures var slugs := Header.PartnerSlugs(Header.PartnerCountries);
            forall i :: 0 <= i < |slugs| ==>
              Render(Some(slugs[i])).CountryPage? && Render(Some(slugs[i])).name == Header.PartnerCountries[i].name
  {
    HeaderLinkNames();
    Header.HeaderSlugs();
  }
}
