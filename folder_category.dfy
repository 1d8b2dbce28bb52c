/** The `FolderCategory` enumeration of Home/Model: seven cases backed by string raw
    values, each with the name of its icon asset. */
module FolderCategories {
  import opened Options

  datatype FolderCategory = Personal | Work | School | Travel | Ideas | Finance | Health

  /** The raw values, in declaration order. */
  const RawValueLabels: seq<string> := ["Personal", "Work", "School", "Travel", "Music", "Finance", "Health"]

  /** The names of the icon assets the cases use. */
  const IconAssets: set<string> :=
    {"user", "work_icon", "graduation-cap", "luggage (2)", "icon_music", "icon_finance", "icon_health"}

  /** The case's `rawValue`; note that `Ideas` is backed by "Music". */
  function RawValue(c: FolderCategory): (r: string)
    ensures r in RawValueLabels
  {
    match c
    case Personal => "Personal"
    case Work => "Work"
    case School => "School"
    case Travel => "Travel"
    case Ideas => "Music"
    case Finance => "Finance"
    case Health => "Health"
  }

  /** `FolderCategory.allCases`, in declaration order. */
  function AllCases(): (r: seq<FolderCategory>)
    ensures |r| == 7
    ensures forall i, j :: 0 <= i < j < |r| ==> r[i] != r[j]
  {
    [Personal, Work, School, Travel, Ideas, Finance, Health]
  }

  /** Every case is listed in `allCases`. */
  lemma EveryCaseListed(c: FolderCategory)
    ensures c in AllCases()
  {
    var all := AllCases();
    match c
    case Personal => assert all[0] == c;
    case Work => assert all[1] == c;
    case School => assert all[2] == c;
    case Travel => assert all[3] == c;
    case Ideas => assert all[4] == c;
    case Finance => assert all[5] == c;
    case Health => assert all[6] == c;
  }

  /** The failable `init?(rawValue:)` that the raw-value enum synthesises. */
  function FromRawValue(s: string): (r: Option<FolderCategory>)
    ensures r.Some? ==> RawValue(r.value) == s
    ensures r.None? ==> forall c: FolderCategory :: RawValue(c) != s
  {
    if s == "Personal" then Some(Personal)
    else if s == "Work" then Some(Work)
    else if s == "School" then Some(School)
    else if s == "Travel" then Some(Travel)
    else if s == "Music" then Some(Ideas)
    else if s == "Finance" then Some(Finance)
    else if s == "Health" then Some(Health)
    else None
  }

  /** The `iconAssetName` computed property. */
  function IconAssetName(c: FolderCategory): (r: string)
    ensures r in IconAssets
  {
    match c
    case Personal => "user"
    case Work => "work_icon"
    case School => "graduation-cap"
    case Travel => "luggage (2)"
    case Ideas => "icon_music"
    case Finance => "icon_finance"
    case Health => "icon_health"
  }

  /** Raw values are pairwise distinct, so they identify the case. */
  lemma RawValueInjective(c: FolderCategory, d: FolderCategory)
    ensures RawValue(c) == RawValue(d) <==> c == d
  {
  }

  /** Looking a case up by its raw value gives the case back. */
  lemma RawValueRoundTrip(c: FolderCategory)
    ensures FromRawValue(RawValue(c)) == Some(c)
  {
  }

  /** The raw values of `allCases`, in order. */
  lemma AllRawValues()
    ensures |AllCases()| == 7
    ensures forall i :: 0 <= i < 7 ==>
      RawValue(AllCases()[i]) == RawValueLabels[i]
  {
  }

  /** The `ideas` case is labelled "Music", and no case is labelled "Ideas". */
  lemma IdeasIsMusic()
    ensures RawValue(Ideas) == "Music"
    ensures FromRawValue("Ideas") == None
  {
  }

  /** The icon table, case by case. */
  lemma IconAssetTable()
    ensures IconAssetName(Personal) == "user" && IconAssetName(Work) == "work_icon"
    ensures IconAssetName(School) == "graduation-cap" && IconAssetName(Travel) == "luggage (2)"
    ensures IconAssetName(Ideas) == "icon_music" && IconAssetName(Finance) == "icon_finance"
    ensures IconAssetName(Health) == "icon_health"
  {
  }
}
