/** The shared record types of the welfare-office application: request
    templates with their requirements and workflow, soldiers, consultation
    cases with their checklists, and the fixed table of request categories. */
module Schema {
  import opened Options

  /** The kind of value a requirement asks for (the `type` field). */
  datatype FieldType = Text | Number | Date | Boolean | File

  /** Who a requirement is assigned to: the soldier, the welfare NCO
      ("mashak") or the commander. */
  datatype Role = Soldier | Mashak | Commander

  /** Who carries out a workflow step: any role, or the system itself. */
  datatype Responsible = ByRole(role: Role) | System

  datatype Requirement = Requirement(
    id: string,
    title: string,
    description: Option<string>,
    kind: FieldType,
    required: bool,
    validationRule: Option<string>,
    allowMultiple: Option<bool>,
    assignedTo: Option<Role>)

  datatype ProcessStep = ProcessStep(
    order: int,
    title: string,
    description: string,
    isAutomated: bool,
    responsible: Option<Responsible>)

  /** One kind of request a soldier can file, with what it takes to file it. */
  datatype RequestTemplate = RequestTemplate(
    id: string,
    title: string,
    category: string,
    shortDescription: string,
    eligibilityCriteria: seq<string>,
    aiKeywords: seq<string>,
    approvingAuthority: string,
    requiresHomeVisit: bool,
    requiresDeclaration: bool,
    procedure30Days: Option<int>,
    relatedBenefits: Option<seq<string>>,
    requirements: seq<Requirement>,
    workflow: seq<ProcessStep>,
    soldierActions: Option<seq<string>>,
    mashakActions: Option<seq<string>>,
    slaHours: int,
    lastUpdated: string)

  /** Which list a checklist item belongs to. */
  datatype ChecklistKind = SoldierDoc | CommanderAction | MashakAction

  datatype ItemCategory = DocumentItem | ActionItem

  datatype ChecklistItem = ChecklistItem(
    id: string,
    text: string,
    isChecked: bool,
    kind: ChecklistKind,
    category: Option<ItemCategory>)

  datatype LoneSoldierType = Muvhak | Hame | SuidHelp

  datatype TashmashType = Parents | Married | Pregnancy | MarriedChild

  /** `createdAt` is a timestamp in seconds. */
  datatype SoldierRecord = SoldierRecord(
    id: string,
    personalId: string,
    fullName: string,
    unit: Option<string>,
    phone: Option<string>,
    notes: Option<string>,
    isLoneSoldier: Option<bool>,
    loneSoldierType: Option<LoneSoldierType>,
    isTashmash: Option<bool>,
    tashmashType: Option<TashmashType>,
    isOrPopulation: Option<bool>,
    orType: Option<string>,
    createdAt: int,
    updatedAt: Option<int>)

  datatype CaseStatus = Active | Completed | Archived

  /** A case always has a soldier and a commander checklist; the NCO
      checklist is optional. Timestamps are in seconds. */
  datatype ConsultationCase = ConsultationCase(
    id: string,
    userId: string,
    soldierId: string,
    soldierName: string,
    soldierDescription: string,
    templateId: string,
    templateTitle: string,
    soldierChecklist: seq<ChecklistItem>,
    commanderChecklist: seq<ChecklistItem>,
    status: CaseStatus,
    mashakChecklist: Option<seq<ChecklistItem>>,
    aiRecommendation: Option<string>,
    matchedKeywords: Option<seq<string>>,
    createdAt: int,
    updatedAt: int)

  /** The keys of `REQUEST_CATEGORIES`. */
  datatype Category =
    | Tashmash | LoneSoldier | Housing | Helana | Hakash
    | Economic | Leave | Shortening | OrPopulation | Other

  /** The object key under which a category is listed. */
  function CategoryKey(c: Category): string
  {
    match c
    case Tashmash => "tashmash"
    case LoneSoldier => "lone_soldier"
    case Housing => "housing"
    case Helana => "helana"
    case Hakash => "hakash"
    case Economic => "economic"
    case Leave => "leave"
    case Shortening => "shortening"
    case OrPopulation => "or_population"
    case Other => "other"
  }

  /** The display name shown for a category. */
  function CategoryName(c: Category): string
  {
    match c
    case Tashmash => "תשמ\"ש"
    case LoneSoldier => "חייל בודד"
    case Housing => "דיור"
    case Helana => "הלנות"
    case Hakash => "הקלות"
    case Economic => "כלכלי"
    case Leave => "חופשות"
    case Shortening => "קיצור שירות"
    case OrPopulation => "אוכלוסיות אור"
    case Other => "אחר"
  }

  /** The keys in declaration order. */
  const CategoryKeys: seq<string> := [
    "tashmash", "lone_soldier", "housing", "helana", "hakash",
    "economic", "leave", "shortening", "or_population", "other"
  ]

  /** `REQUEST_CATEGORIES[key]`: the category listed under a key, if any. */
  function CategoryOfKey(key: string): (r: Option<Category>)
    ensures r.Some? ==> CategoryKey(r.value) == key
    ensures r.None? ==> key !in CategoryKeys
  {
    if key == "tashmash" then Some(Tashmash)
    else if key == "lone_soldier" then Some(LoneSoldier)
    else if key == "housing" then Some(Housing)
    else if key == "helana" then Some(Helana)
    else if key == "hakash" then Some(Hakash)
    else if key == "economic" then Some(Economic)
    else if key == "leave" then Some(Leave)
    else if key == "shortening" then Some(Shortening)
    else if key == "or_population" then Some(OrPopulation)
    else if key == "other" then Some(Other)
    else None
  }

  /** Every category is found under its own key, and the table has exactly
      ten distinct keys. */
  lemma CategoryTable(c: Category)
    ensures CategoryOfKey(CategoryKey(c)) == Some(c)
    ensures CategoryKey(c) in CategoryKeys
    ensures |CategoryKeys| == 10
    ensures forall i, j :: 0 <= i < j < |CategoryKeys| ==> CategoryKeys[i] != CategoryKeys[j]
  {
  }
}
