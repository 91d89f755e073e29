/** The shared requirement blocks of the seed catalogue: the standard
    financial documents asked of a soldier, of the parents and of a spouse,
    the income declaration and the confidentiality waiver, and the two ways
    templates reuse a block (assigning it to the soldier, or taking the
    first four entries as optional "partial" documents). */
module SeedBlocks {
  import opened Options
  import opened Schema

  const EconomicDocsSoldier: seq<Requirement> := [
    Requirement("bank_3m", "תדפיס עו\"ש (3 חודשים אחרונים)", Some("עובר ושב מלא של כל החשבונות"), File, true, None, Some(true), None),
    Requirement("credit_3m", "פירוט אשראי (3 חודשים אחרונים)", Some("פירוט עסקאות בכרטיסי אשראי"), File, true, None, Some(true), None),
    Requirement("account_mgmt", "אישור ניהול חשבון", Some("מכל הבנקים"), File, true, None, Some(true), None),
    Requirement("balance_sum", "ריכוז יתרות", Some("יתרות בכל החשבונות והפיקדונות"), File, true, None, None, None)
  ]

  const EconomicDocsParents: seq<Requirement> := [
    Requirement("parents_bank_3m", "תדפיס עו\"ש של ההורים (3 חודשים)", Some("עובר ושב מלא של כל חשבונות ההורים"), File, true, None, Some(true), None),
    Requirement("parents_credit_3m", "פירוט אשראי של ההורים (3 חודשים)", Some("פירוט עסקאות בכרטיסי אשראי"), File, true, None, Some(true), None),
    Requirement("parents_account_mgmt", "אישור ניהול חשבון של ההורים", Some("מכל הבנקים"), File, true, None, Some(true), None),
    Requirement("parents_balance_sum", "ריכוז יתרות של ההורים", Some("יתרות בכל החשבונות והפיקדונות"), File, true, None, None, None),
    Requirement("parents_salary", "תלושי שכר של ההורים (3 חודשים)", Some("או אישור על אי עבודה מביטוח לאומי"), File, true, None, Some(true), None),
    Requirement("parents_bituach", "אישור קצבאות מביטוח לאומי", Some("אם רלוונטי"), File, false, None, Some(true), None),
    Requirement("parents_pension", "אישורי פנסיה של ההורים", Some("אם רלוונטי"), File, false, None, Some(true), None),
    Requirement("parents_income_other", "אישורי הכנסות נוספות של ההורים", Some("שכ\"ד, דמי אבטלה, הון וכו׳"), File, false, None, Some(true), None)
  ]

  const EconomicDocsSpouse: seq<Requirement> := [
    Requirement("spouse_bank_3m", "תדפיס עו\"ש של בן/בת הזוג (3 חודשים)", Some("עובר ושב מלא"), File, true, None, Some(true), None),
    Requirement("spouse_credit_3m", "פירוט אשראי של בן/בת הזוג (3 חודשים)", Some("פירוט עסקאות"), File, true, None, Some(true), None),
    Requirement("spouse_salary", "תלושי שכר של בן/בת הזוג (3 חודשים)", Some("או אישור על אי עבודה"), File, true, None, Some(true), None),
    Requirement("spouse_bituach", "אישור קצבאות של בן/בת הזוג", Some("אם רלוונטי"), File, false, None, Some(true), None)
  ]

  const IncomeDeclaration: Requirement :=
    Requirement("declaration", "הצהרת מהימנות (חתומה)", Some("טופס הצהרה על הכנסות ונכסים"), File, true, None, None, None)

  const ConfidentialityWaiver: Requirement :=
    Requirement("confidentiality", "ויתור סודיות", Some("חתום ע\"י ההורים/בן הזוג"), File, true, None, None, None)


  /** The ids of a requirement list, in order. */
  function RequirementIds(rs: seq<Requirement>): (ids: seq<string>)
  {
    seq(|rs|, i requires 0 <= i < |rs| => rs[i].id)
  }

  /** No id occurs twice. */
  predicate Distinct(ids: seq<string>)
  {
    forall i, j :: 0 <= i < j < |ids| ==> ids[i] != ids[j]
  }

  /** The document ids of the three financial blocks. */
  lemma EconomicDocsIds()
    ensures RequirementIds(EconomicDocsSoldier) == ["bank_3m", "credit_3m", "account_mgmt", "balance_sum"]
    ensures RequirementIds(EconomicDocsParents)
         == ["parents_bank_3m", "parents_credit_3m", "parents_account_mgmt", "parents_balance_sum",
             "parents_salary", "parents_bituach", "parents_pension", "parents_income_other"]
    ensures RequirementIds(EconomicDocsSpouse) == ["spouse_bank_3m", "spouse_credit_3m", "spouse_salary", "spouse_bituach"]
  {
  }

  /** `block.map(d => ({ ...d, assignedTo: role }))`: the same documents,
      each now assigned to `role`, nothing else changed. */
  function AssignTo(block: seq<Requirement>, role: Role): (r: seq<Requirement>)
    ensures |r| == |block|
    ensures forall i :: 0 <= i < |r| ==> r[i].assignedTo == Some(role)
    ensures forall i :: 0 <= i < |r| ==> r[i].(assignedTo := block[i].assignedTo) == block[i]
    ensures RequirementIds(r) == RequirementIds(block)
  {
    seq(|block|, i requires 0 <= i < |block| => block[i].(assignedTo := Some(role)))
  }

  const PartialSuffix: string := "_partial"
  const PartialCount: nat := 4

  /** One document of a partial block: renamed with the "_partial" suffix,
      optional, and assigned to the soldier. */
  function PartialOf(d: Requirement): Requirement
  {
    d.(id := d.id + PartialSuffix, required := false, assignedTo := Some(Soldier))
  }

  /** `block.slice(0, 4).map(...)` with `PartialOf` as the mapping: at most
      the first four documents, each turned into its partial form. */
  function Partial(block: seq<Requirement>): (r: seq<Requirement>)
    ensures |r| == if |block| < PartialCount then |block| else PartialCount
    ensures forall i :: 0 <= i < |r| ==>
              && r[i].id == block[i].id + PartialSuffix
              && r[i].title == block[i].title
              && !r[i].required
              && r[i].assignedTo == Some(Soldier)
              && r[i].(id := block[i].id, required := block[i].required, assignedTo := block[i].assignedTo) == block[i]
  {
    var prefix := if |block| < PartialCount then block else block[..PartialCount];
    seq(|prefix|, i requires 0 <= i < |prefix| => PartialOf(prefix[i]))
  }

  /** The partial parents block: the first four parents documents, each
      renamed with the "_partial" suffix. */
  lemma PartialParentsIds()
    ensures RequirementIds(Partial(EconomicDocsParents))
         == ["parents_bank_3m_partial", "parents_credit_3m_partial",
             "parents_account_mgmt_partial", "parents_balance_sum_partial"]
  {
    assert "parents_bank_3m" + PartialSuffix == "parents_bank_3m_partial";
    assert "parents_credit_3m" + PartialSuffix == "parents_credit_3m_partial";
    assert "parents_account_mgmt" + PartialSuffix == "parents_account_mgmt_partial";
    assert "parents_balance_sum" + PartialSuffix == "parents_balance_sum_partial";
  }
}
