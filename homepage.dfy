/** The home page: CMS feature sections merged, by position, into built-in defaults. */
module Homepage {
  import opened Wrappers

  /** One entry of the CMS `featureSections` array; every field may be missing. */
  datatype CmsSection = CmsSection(
    title: Option<string>,
    description: Option<string>,
    imageUrl: Option<string>)

  /** The CMS homepage document: `featureSections` may be missing, and so may any entry. */
  datatype HomepageData = HomepageData(featureSections: Option<seq<Option<CmsSection>>>)

  /** A section as the page renders it. */
  datatype Section = Section(title: string, description: string, imageUrl: string)

  const DefaultSections: seq<Section> := [
    Section(
      "Vendita di Moto Nuove e Usate",
      "Ampia gamma di moto nuove KTM, Husqvarna, Kymco e Voge a Brescia con finanziamenti personalizzati. Selezione accurata di moto usate controllate e garantite nel nostro concessionario.",
      "/hero-motorcycle.png"),
    Section(
      "Officina, ricambi e riparazioni",
      "Officina specializzata con tecnici qualificati. Vasto magazzino ricambi originali e reparto dedicato ad accessori e abbigliamento per la tua sicurezza e comfort.",
      "/hero-motorcycle.png")
  ]

  /** A CMS string counts only when it is present and not empty (JavaScript truthiness). */
  predicate Present(o: Option<string>) {
    o.Some? && o.value != ""
  }

  /** `cms || fallback` on an optional string. */
  function Or(cms: Option<string>, fallback: string): string {
    if Present(cms) then cms.value else fallback
  }

  const Missing: CmsSection := CmsSection(None, None, None)

  /**
   * `data?.featureSections?.[index]`: optional chaining turns a missing
   * document, a missing array, an index past its end and a null entry alike
   * into a section whose every field is missing.
   */
  function CmsAt(data: Option<HomepageData>, index: nat): CmsSection {
    if data.None? || data.value.featureSections.None? then Missing
    else
      var s := data.value.featureSections.value;
      if index < |s| then s[index].GetOr(Missing) else Missing
  }

  function MergeSection(default: Section, cms: CmsSection): Section {
    Section(
      Or(cms.title, default.title),
      Or(cms.description, default.description),
      Or(cms.imageUrl, default.imageUrl))
  }

  /**
   * `featureSections`: one section per default; each field comes from the CMS
   * entry at the same position when it is a non-empty string, and from the
   * default otherwise.
   */
  function MergeSections(data: Option<HomepageData>): (r: seq<Section>)
    ensures |r| == |DefaultSections|
    ensures forall i :: 0 <= i < |r| && Present(CmsAt(data, i).title) ==>
      r[i].title == CmsAt(data, i).title.value
    ensures forall i :: 0 <= i < |r| && !Present(CmsAt(data, i).title) ==>
      r[i].title == DefaultSections[i].title
    ensures forall i :: 0 <= i < |r| && Present(CmsAt(data, i).description) ==>
      r[i].description == CmsAt(data, i).description.value
    ensures forall i :: 0 <= i < |r| && !Present(CmsAt(data, i).description) ==>
      r[i].description == DefaultSections[i].description
    ensures forall i :: 0 <= i < |r| && Present(CmsAt(data, i).imageUrl) ==>
      r[i].imageUrl == CmsAt(data, i).imageUrl.value
    ensures forall i :: 0 <= i < |r| && !Present(CmsAt(data, i).imageUrl) ==>
      r[i].imageUrl == DefaultSections[i].imageUrl
    ensures forall i :: 0 <= i < |r| ==>
      r[i].title != "" && r[i].description != "" && r[i].imageUrl != ""
  {
    seq(|DefaultSections|, i requires 0 <= i < |DefaultSections| =>
      MergeSection(DefaultSections[i], CmsAt(data, i)))
  }

  /** Without a document, or without its `featureSections`, the page shows the defaults. */
  lemma MissingDataGivesDefaults(data: Option<HomepageData>)
    requires data.None? || data.value.featureSections.None?
    ensures MergeSections(data) == DefaultSections
  {
    var r := MergeSections(data);
    forall i | 0 <= i < |r| ensures r[i] == DefaultSections[i] {
      assert CmsAt(data, i) == Missing;
    }
  }

  /** CMS entries beyond the number of defaults have no effect. */
  lemma ExtraSectionsIgnored(sections: seq<Option<CmsSection>>)
    requires |sections| >= |DefaultSections|
    ensures MergeSections(Some(HomepageData(Some(sections))))
         == MergeSections(Some(HomepageData(Some(sections[..|DefaultSections|]))))
  {
    var whole := Some(HomepageData(Some(sections)));
    var prefix := Some(HomepageData(Some(sections[..|DefaultSections|])));
    forall i | 0 <= i < |DefaultSections| ensures CmsAt(whole, i) == CmsAt(prefix, i) {
    }
  }
}
