/** The identifying columns of the seed catalogue, and per-template proofs
    that each transcribed template agrees with its row.

    The proofs come in one group per template rather than as a single lemma
    over `Catalogue(now)`: unfolding one transcribed template already takes
    about half of what the verifier may spend on a proof, so a generic lemma
    over every position cannot be proved. Each group states the template's
    requirement ids, that they are distinct, and that the template is
    `Indexed` by its row. */
module CatalogueIndexing {
  import opened Options
  import opened Schema
  import opened SeedBlocks
  import opened SeedCatalogue

  /** The identifying columns of one catalogue template: its id, its
      category and how many requirements it lists. */
  datatype Row = Row(id: string, category: string, requirementCount: nat)

  /** The catalogue's identifying columns, in source order. */
  const CatalogueIndex: seq<Row> := [
    Row("tashmash-parents", "tashmash", 15),
    Row("tashmash-married", "tashmash", 9),
    Row("tashmash-pregnancy", "tashmash", 4),
    Row("tashmash-married-child", "tashmash", 11),
    Row("lone-soldier-muvhak", "lone_soldier", 9),
    Row("lone-soldier-hame", "lone_soldier", 10),
    Row("suid-help", "lone_soldier", 8),
    Row("rent-participation", "housing", 8),
    Row("beit-hachayel", "housing", 3),
    Row("maintenance-expenses", "housing", 6),
    Row("helana-part", "helana", 4),
    Row("helana-distance", "helana", 2),
    Row("hakash-1", "hakash", 2),
    Row("hakash-2", "hakash", 3),
    Row("hakash-3", "hakash", 4),
    Row("work-permit", "economic", 7),
    Row("bzack-grant", "economic", 7),
    Row("vouchers", "economic", 2),
    Row("loan-immediate", "economic", 6),
    Row("special-leave-economic", "leave", 7),
    Row("special-leave-wedding", "leave", 2),
    Row("special-leave-birth", "leave", 1),
    Row("or-new-immigrant", "or_population", 3),
    Row("or-broken-home", "or_population", 0),
    Row("or-parent-sick", "or_population", 3),
    Row("flight-funding", "other", 4),
    Row("equipment-loss", "other", 4)
  ]

  /** `t` is the template the row describes, its title is set, and no
      document is requested twice. */
  predicate Indexed(t: RequestTemplate, row: Row)
  {
    && t.id == row.id
    && t.category == row.category
    && |t.requirements| == row.requirementCount
    && t.title != ""
    && Distinct(RequirementIds(t.requirements))
  }

  // Each template is checked by lemmas of its own: one proof that unfolded
  // the whole transcription at once would be far too large.

  /** The document ids the template requests, in order. */
  const TashmashParentsIds: seq<string> := ["declaration", "confidentiality", "parents_id", "parents_marriage",
           "parents_bank_3m", "parents_credit_3m", "parents_account_mgmt",
           "parents_balance_sum", "parents_salary", "parents_bituach", "parents_pension",
           "parents_income_other", "vehicle", "property", "debts"]

  lemma TashmashParentsIdsDistinct()
    ensures Distinct(TashmashParentsIds)
  {
  }

  lemma TashmashParentsRequirementIds()
    ensures RequirementIds(TashmashParentsRequirements()) == TashmashParentsIds
  {
    EconomicDocsIds();
    assert TashmashParentsRequirements()[4..12] == AssignTo(EconomicDocsParents, Soldier);
  }

  lemma TashmashParentsIndexed(now: string)
    ensures Indexed(TashmashParents(now), CatalogueIndex[0])
  {
    TashmashParentsRequirementIds();
    TashmashParentsIdsDistinct();
  }

  /** The document ids the template requests, in order. */
  const TashmashMarriedIds: seq<string> := ["declaration", "marriage_cert", "ids", "rent_contract", "spouse_bank_3m",
           "spouse_credit_3m", "spouse_salary", "spouse_bituach", "joint_bank_3m"]

  lemma TashmashMarriedIdsDistinct()
    ensures Distinct(TashmashMarriedIds)
  {
  }

  lemma TashmashMarriedRequirementIds()
    ensures RequirementIds(TashmashMarriedRequirements()) == TashmashMarriedIds
  {
    EconomicDocsIds();
    assert TashmashMarriedRequirements()[4..8] == AssignTo(EconomicDocsSpouse, Soldier);
  }

  lemma TashmashMarriedIndexed(now: string)
    ensures Indexed(TashmashMarried(now), CatalogueIndex[1])
  {
    TashmashMarriedRequirementIds();
    TashmashMarriedIdsDistinct();
  }

  /** The document ids the template requests, in order. */
  const TashmashPregnancyIds: seq<string> := ["declaration", "pregnancy_cert", "husband_id", "marriage_cert"]

  lemma TashmashPregnancyIdsDistinct()
    ensures Distinct(TashmashPregnancyIds)
  {
  }

  lemma TashmashPregnancyRequirementIds()
    ensures RequirementIds(TashmashPregnancyRequirements()) == TashmashPregnancyIds
  {
  }

  lemma TashmashPregnancyIndexed(now: string)
    ensures Indexed(TashmashPregnancy(now), CatalogueIndex[2])
  {
    TashmashPregnancyRequirementIds();
    TashmashPregnancyIdsDistinct();
  }

  /** The document ids the template requests, in order. */
  const TashmashMarriedChildIds: seq<string> := ["declaration", "marriage_cert", "child_birth_cert", "ids", "rent_contract",
           "spouse_bank_3m", "spouse_credit_3m", "spouse_salary", "spouse_bituach",
           "joint_bank_3m", "child_allowance"]

  lemma TashmashMarriedChildIdsDistinct()
    ensures Distinct(TashmashMarriedChildIds)
  {
  }

  lemma TashmashMarriedChildRequirementIds()
    ensures RequirementIds(TashmashMarriedChildRequirements()) == TashmashMarriedChildIds
  {
    EconomicDocsIds();
    assert TashmashMarriedChildRequirements()[5..9] == AssignTo(EconomicDocsSpouse, Soldier);
  }

  lemma TashmashMarriedChildIndexed(now: string)
    ensures Indexed(TashmashMarriedChild(now), CatalogueIndex[3])
  {
    TashmashMarriedChildRequirementIds();
    TashmashMarriedChildIdsDistinct();
  }

  /** The document ids the template requests, in order. */
  const LoneSoldierMuvhakIds: seq<string> := ["declaration", "passport_entries", "passport", "parents_passport",
           "parents_abroad_proof", "parents_letter", "personal_letter", "aliyah_cert",
           "home_visit"]

  lemma LoneSoldierMuvhakIdsDistinct()
    ensures Distinct(LoneSoldierMuvhakIds)
  {
  }

  lemma LoneSoldierMuvhakRequirementIds()
    ensures RequirementIds(LoneSoldierMuvhakRequirements()) == LoneSoldierMuvhakIds
  {
  }

  lemma LoneSoldierMuvhakIndexed(now: string)
    ensures Indexed(LoneSoldierMuvhak(now), CatalogueIndex[4])
  {
    LoneSoldierMuvhakRequirementIds();
    LoneSoldierMuvhakIdsDistinct();
  }

  /** The document ids the template requests, in order. */
  const LoneSoldierHameIds: seq<string> := ["declaration", "social_worker_report", "affidavit_soldier", "affidavit_witness1",
           "affidavit_witness2", "personal_letter", "bank_check", "parents_id",
           "home_visit", "mashak_report"]

  lemma LoneSoldierHameIdsDistinct()
    ensures Distinct(LoneSoldierHameIds)
  {
  }

  lemma LoneSoldierHameRequirementIds()
    ensures RequirementIds(LoneSoldierHameRequirements()) == LoneSoldierHameIds
  {
  }

  lemma LoneSoldierHameIndexed(now: string)
    ensures Indexed(LoneSoldierHame(now), CatalogueIndex[5])
  {
    LoneSoldierHameRequirementIds();
    LoneSoldierHameIdsDistinct();
  }

  /** The document ids the template requests, in order. */
  const SuidHelpIds: seq<string> := ["declaration", "parents_id", "parents_bank_3m_partial", "parents_credit_3m_partial",
           "parents_account_mgmt_partial", "parents_balance_sum_partial", "support_letter",
           "home_visit"]

  lemma SuidHelpIdsDistinct()
    ensures Distinct(SuidHelpIds)
  {
  }

  lemma SuidHelpRequirementIds()
    ensures RequirementIds(SuidHelpRequirements()) == SuidHelpIds
  {
    PartialParentsIds();
    assert SuidHelpRequirements()[2..6] == Partial(EconomicDocsParents);
    assert RequirementIds(SuidHelpRequirements())[2..6] == RequirementIds(Partial(EconomicDocsParents));
  }

  lemma SuidHelpIndexed(now: string)
    ensures Indexed(SeedCatalogue.SuidHelp(now), CatalogueIndex[6])
  {
    SuidHelpRequirementIds();
    SuidHelpIdsDistinct();
  }

  /** The document ids the template requests, in order. */
  const RentParticipationIds: seq<string> := ["rent_contract", "landlord_id", "landlord_bank", "bank_ownership", "arnona",
           "electric", "lone_soldier_cert", "home_visit"]

  lemma RentParticipationIdsDistinct()
    ensures Distinct(RentParticipationIds)
  {
  }

  lemma RentParticipationRequirementIds()
    ensures RequirementIds(RentParticipationRequirements()) == RentParticipationIds
  {
  }

  lemma RentParticipationIndexed(now: string)
    ensures Indexed(RentParticipation(now), CatalogueIndex[7])
  {
    RentParticipationRequirementIds();
    RentParticipationIdsDistinct();
  }

  /** The document ids the template requests, in order. */
  const BeitHachayelIds: seq<string> := ["commander_approval", "photo", "lone_cert"]

  lemma BeitHachayelIdsDistinct()
    ensures Distinct(BeitHachayelIds)
  {
  }

  lemma BeitHachayelRequirementIds()
    ensures RequirementIds(BeitHachayelRequirements()) == BeitHachayelIds
  {
  }

  lemma BeitHachayelIndexed(now: string)
    ensures Indexed(BeitHachayel(now), CatalogueIndex[8])
  {
    BeitHachayelRequirementIds();
    BeitHachayelIdsDistinct();
  }

  /** The document ids the template requests, in order. */
  const MaintenanceExpensesIds: seq<string> := ["rent_contract", "electric_bills", "water_bills", "gas_bills", "internet_bills",
           "arnona"]

  lemma MaintenanceExpensesIdsDistinct()
    ensures Distinct(MaintenanceExpensesIds)
  {
  }

  lemma MaintenanceExpensesRequirementIds()
    ensures RequirementIds(MaintenanceExpensesRequirements()) == MaintenanceExpensesIds
  {
  }

  lemma MaintenanceExpensesIndexed(now: string)
    ensures Indexed(MaintenanceExpenses(now), CatalogueIndex[9])
  {
    MaintenanceExpensesRequirementIds();
    MaintenanceExpensesIdsDistinct();
  }

  /** The document ids the template requests, in order. */
  const HelanaPartIds: seq<string> := ["declaration", "home_visit", "commander_approval", "personal_letter"]

  lemma HelanaPartIdsDistinct()
    ensures Distinct(HelanaPartIds)
  {
  }

  lemma HelanaPartRequirementIds()
    ensures RequirementIds(HelanaPartRequirements()) == HelanaPartIds
  {
  }

  lemma HelanaPartIndexed(now: string)
    ensures Indexed(HelanaPart(now), CatalogueIndex[10])
  {
    HelanaPartRequirementIds();
    HelanaPartIdsDistinct();
  }

  /** The document ids the template requests, in order. */
  const HelanaDistanceIds: seq<string> := ["address_proof", "waze_screenshot"]

  lemma HelanaDistanceIdsDistinct()
    ensures Distinct(HelanaDistanceIds)
  {
  }

  lemma HelanaDistanceRequirementIds()
    ensures RequirementIds(HelanaDistanceRequirements()) == HelanaDistanceIds
  {
  }

  lemma HelanaDistanceIndexed(now: string)
    ensures Indexed(HelanaDistance(now), CatalogueIndex[11])
  {
    HelanaDistanceRequirementIds();
    HelanaDistanceIdsDistinct();
  }

  /** The document ids the template requests, in order. */
  const Hakash1Ids: seq<string> := ["request_form", "commander_approval"]

  lemma Hakash1IdsDistinct()
    ensures Distinct(Hakash1Ids)
  {
  }

  lemma Hakash1RequirementIds()
    ensures RequirementIds(Hakash1Requirements()) == Hakash1Ids
  {
  }

  lemma Hakash1Indexed(now: string)
    ensures Indexed(Hakash1(now), CatalogueIndex[12])
  {
    Hakash1RequirementIds();
    Hakash1IdsDistinct();
  }

  /** The document ids the template requests, in order. */
  const Hakash2Ids: seq<string> := ["request_form", "home_visit", "commander_approval"]

  lemma Hakash2IdsDistinct()
    ensures Distinct(Hakash2Ids)
  {
  }

  lemma Hakash2RequirementIds()
    ensures RequirementIds(Hakash2Requirements()) == Hakash2Ids
  {
  }

  lemma Hakash2Indexed(now: string)
    ensures Indexed(Hakash2(now), CatalogueIndex[13])
  {
    Hakash2RequirementIds();
    Hakash2IdsDistinct();
  }

  /** The document ids the template requests, in order. */
  const Hakash3Ids: seq<string> := ["request_form", "home_visit", "social_report", "commander_approval"]

  lemma Hakash3IdsDistinct()
    ensures Distinct(Hakash3Ids)
  {
  }

  lemma Hakash3RequirementIds()
    ensures RequirementIds(Hakash3Requirements()) == Hakash3Ids
  {
  }

  lemma Hakash3Indexed(now: string)
    ensures Indexed(Hakash3(now), CatalogueIndex[14])
  {
    Hakash3RequirementIds();
    Hakash3IdsDistinct();
  }

  /** The document ids the template requests, in order. */
  const WorkPermitIds: seq<string> := ["bank_3m", "credit_3m", "account_mgmt", "balance_sum", "debts",
           "commander_approval", "employer_letter"]

  lemma WorkPermitIdsDistinct()
    ensures Distinct(WorkPermitIds)
  {
  }

  lemma WorkPermitRequirementIds()
    ensures RequirementIds(WorkPermitRequirements()) == WorkPermitIds
  {
    EconomicDocsIds();
    assert WorkPermitRequirements()[0..4] == AssignTo(EconomicDocsSoldier, Soldier);
  }

  lemma WorkPermitIndexed(now: string)
    ensures Indexed(WorkPermit(now), CatalogueIndex[15])
  {
    WorkPermitRequirementIds();
    WorkPermitIdsDistinct();
  }

  /** The document ids the template requests, in order. */
  const BzackGrantIds: seq<string> := ["bank_3m", "credit_3m", "account_mgmt", "balance_sum", "debts", "execution",
           "social_report"]

  lemma BzackGrantIdsDistinct()
    ensures Distinct(BzackGrantIds)
  {
  }

  lemma BzackGrantRequirementIds()
    ensures RequirementIds(BzackGrantRequirements()) == BzackGrantIds
  {
    EconomicDocsIds();
    assert BzackGrantRequirements()[0..4] == AssignTo(EconomicDocsSoldier, Soldier);
  }

  lemma BzackGrantIndexed(now: string)
    ensures Indexed(BzackGrant(now), CatalogueIndex[16])
  {
    BzackGrantRequirementIds();
    BzackGrantIdsDistinct();
  }

  /** The document ids the template requests, in order. */
  const VouchersIds: seq<string> := ["request", "bank_1m"]

  lemma VouchersIdsDistinct()
    ensures Distinct(VouchersIds)
  {
  }

  lemma VouchersRequirementIds()
    ensures RequirementIds(VouchersRequirements()) == VouchersIds
  {
  }

  lemma VouchersIndexed(now: string)
    ensures Indexed(Vouchers(now), CatalogueIndex[17])
  {
    VouchersRequirementIds();
    VouchersIdsDistinct();
  }

  /** The document ids the template requests, in order. */
  const LoanImmediateIds: seq<string> := ["bank_3m", "credit_3m", "account_mgmt", "balance_sum", "purpose", "repayment_plan"]

  lemma LoanImmediateIdsDistinct()
    ensures Distinct(LoanImmediateIds)
  {
  }

  lemma LoanImmediateRequirementIds()
    ensures RequirementIds(LoanImmediateRequirements()) == LoanImmediateIds
  {
    EconomicDocsIds();
    assert LoanImmediateRequirements()[0..4] == AssignTo(EconomicDocsSoldier, Soldier);
  }

  lemma LoanImmediateIndexed(now: string)
    ensures Indexed(LoanImmediate(now), CatalogueIndex[18])
  {
    LoanImmediateRequirementIds();
    LoanImmediateIdsDistinct();
  }

  /** The document ids the template requests, in order. */
  const SpecialLeaveEconomicIds: seq<string> := ["bank_3m", "credit_3m", "account_mgmt", "balance_sum", "work_permit", "debts",
           "commander_approval"]

  lemma SpecialLeaveEconomicIdsDistinct()
    ensures Distinct(SpecialLeaveEconomicIds)
  {
  }

  lemma SpecialLeaveEconomicRequirementIds()
    ensures RequirementIds(SpecialLeaveEconomicRequirements()) == SpecialLeaveEconomicIds
  {
    EconomicDocsIds();
    assert SpecialLeaveEconomicRequirements()[0..4] == AssignTo(EconomicDocsSoldier, Soldier);
  }

  lemma SpecialLeaveEconomicIndexed(now: string)
    ensures Indexed(SpecialLeaveEconomic(now), CatalogueIndex[19])
  {
    SpecialLeaveEconomicRequirementIds();
    SpecialLeaveEconomicIdsDistinct();
  }

  /** The document ids the template requests, in order. */
  const SpecialLeaveWeddingIds: seq<string> := ["wedding_invitation", "marriage_intent"]

  lemma SpecialLeaveWeddingIdsDistinct()
    ensures Distinct(SpecialLeaveWeddingIds)
  {
  }

  lemma SpecialLeaveWeddingRequirementIds()
    ensures RequirementIds(SpecialLeaveWeddingRequirements()) == SpecialLeaveWeddingIds
  {
  }

  lemma SpecialLeaveWeddingIndexed(now: string)
    ensures Indexed(SpecialLeaveWedding(now), CatalogueIndex[20])
  {
    SpecialLeaveWeddingRequirementIds();
    SpecialLeaveWeddingIdsDistinct();
  }

  /** The document ids the template requests, in order. */
  const SpecialLeaveBirthIds: seq<string> := ["birth_cert"]

  lemma SpecialLeaveBirthIdsDistinct()
    ensures Distinct(SpecialLeaveBirthIds)
  {
  }

  lemma SpecialLeaveBirthRequirementIds()
    ensures RequirementIds(SpecialLeaveBirthRequirements()) == SpecialLeaveBirthIds
  {
  }

  lemma SpecialLeaveBirthIndexed(now: string)
    ensures Indexed(SpecialLeaveBirth(now), CatalogueIndex[21])
  {
    SpecialLeaveBirthRequirementIds();
    SpecialLeaveBirthIdsDistinct();
  }

  /** The document ids the template requests, in order. */
  const OrNewImmigrantIds: seq<string> := ["aliyah_date", "teudat_oleh", "passport"]

  lemma OrNewImmigrantIdsDistinct()
    ensures Distinct(OrNewImmigrantIds)
  {
  }

  lemma OrNewImmigrantRequirementIds()
    ensures RequirementIds(OrNewImmigrantRequirements()) == OrNewImmigrantIds
  {
  }

  lemma OrNewImmigrantIndexed(now: string)
    ensures Indexed(OrNewImmigrant(now), CatalogueIndex[22])
  {
    OrNewImmigrantRequirementIds();
    OrNewImmigrantIdsDistinct();
  }

  /** The document ids the template requests, in order. */
  const OrBrokenHomeIds: seq<string> := []

  lemma OrBrokenHomeIdsDistinct()
    ensures Distinct(OrBrokenHomeIds)
  {
  }

  lemma OrBrokenHomeRequirementIds()
    ensures RequirementIds(OrBrokenHomeRequirements()) == OrBrokenHomeIds
  {
  }

  lemma OrBrokenHomeIndexed(now: string)
    ensures Indexed(OrBrokenHome(now), CatalogueIndex[23])
  {
    OrBrokenHomeRequirementIds();
    OrBrokenHomeIdsDistinct();
  }

  /** The document ids the template requests, in order. */
  const OrParentSickIds: seq<string> := ["medical_cert", "hospital_summary", "dependency_cert"]

  lemma OrParentSickIdsDistinct()
    ensures Distinct(OrParentSickIds)
  {
  }

  lemma OrParentSickRequirementIds()
    ensures RequirementIds(OrParentSickRequirements()) == OrParentSickIds
  {
  }

  lemma OrParentSickIndexed(now: string)
    ensures Indexed(OrParentSick(now), CatalogueIndex[24])
  {
    OrParentSickRequirementIds();
    OrParentSickIdsDistinct();
  }

  /** The document ids the template requests, in order. */
  const FlightFundingIds: seq<string> := ["lone_cert", "flight_quote", "parents_address", "passport_valid"]

  lemma FlightFundingIdsDistinct()
    ensures Distinct(FlightFundingIds)
  {
  }

  lemma FlightFundingRequirementIds()
    ensures RequirementIds(FlightFundingRequirements()) == FlightFundingIds
  {
  }

  lemma FlightFundingIndexed(now: string)
    ensures Indexed(FlightFunding(now), CatalogueIndex[25])
  {
    FlightFundingRequirementIds();
    FlightFundingIdsDistinct();
  }

  /** The document ids the template requests, in order. */
  const EquipmentLossIds: seq<string> := ["loss_report", "commander_approval", "equipment_list", "police_report"]

  lemma EquipmentLossIdsDistinct()
    ensures Distinct(EquipmentLossIds)
  {
  }

  lemma EquipmentLossRequirementIds()
    ensures RequirementIds(EquipmentLossRequirements()) == EquipmentLossIds
  {
  }

  lemma EquipmentLossIndexed(now: string)
    ensures Indexed(EquipmentLoss(now), CatalogueIndex[26])
  {
    EquipmentLossRequirementIds();
    EquipmentLossIdsDistinct();
  }
}
