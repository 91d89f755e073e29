/** The seed catalogue: the 27 request templates the upload script writes
    to the `requestTemplates` collection, transcribed field by field.
    `now` stands for the upload time stamped into `lastUpdated`. */
module SeedCatalogue {
  import opened Options
  import opened Schema
  import opened SeedBlocks

  /** The requirements of the `TashmashParents` template. */
  function TashmashParentsRequirements(): seq<Requirement>
  {
    [
      IncomeDeclaration,
      ConfidentialityWaiver,
      Requirement("parents_id", "צילום תעודות זהות של ההורים + ספח", Some("כולל פירוט כל האחים והאחיות"), File, true, None, Some(true), Some(Soldier)),
      Requirement("parents_marriage", "תעודת נישואין של ההורים", Some("או אישור על מצב משפחתי"), File, true, None, None, Some(Soldier))
    ] +
    AssignTo(EconomicDocsParents, Soldier) +
    [
      Requirement("vehicle", "אישור בעלות על רכב", Some("אם קיים רכב בבעלות ההורים"), File, false, None, None, Some(Soldier)),
      Requirement("property", "אישור בעלות על נדל\"ן", Some("אם קיים נכס בבעלות ההורים (מלבד דירת מגורים)"), File, false, None, None, Some(Soldier)),
      Requirement("debts", "אישורי חובות", Some("מכתבי דרישה, הוצאה לפועל, עיקולים"), File, false, None, Some(true), Some(Soldier))
    ]
  }

  /** The `tashmash-parents` template. */
  function TashmashParents(now: string): RequestTemplate
  {
    RequestTemplate(
      id := "tashmash-parents",
      title := "תשמ\"ש הורים",
      category := "tashmash",
      shortDescription := "סיוע חודשי לחייל שהוריו נמצאים במצוקה כלכלית.",
      eligibilityCriteria := [
        "הורי החייל נמצאים במצוקה כלכלית",
        "הכנסת המשפחה נמוכה מסף הזכאות",
        "החייל אינו נשוי/ידוע בציבור",
        "ההורים אינם בעלי נכסים משמעותיים"
      ],
      aiKeywords := [
        "הורים",
        "כלכלי",
        "מצוקה",
        "חובות",
        "מינוס",
        "אין כסף",
        "הכנסה נמוכה",
        "עוני",
        "סיוע להורים",
        "תשמ\"ש הורים"
      ],
      approvingAuthority := "קצינת ת\"ש יחידה",
      requiresHomeVisit := false,
      requiresDeclaration := true,
      procedure30Days := Some(30),
      relatedBenefits := Some([
        "מענק בזק",
        "תווי קנייה",
        "הלוואה",
        "הלנה"
      ]),
      requirements := TashmashParentsRequirements(),
      workflow := [
        ProcessStep(1, "פתיחת בקשה במערכת \"אנשים\"", "", false, Some(ByRole(Mashak))),
        ProcessStep(2, "החתמת החייל על הצהרת מהימנות", "", false, Some(ByRole(Mashak))),
        ProcessStep(3, "קבלת ויתור סודיות חתום מההורים", "", false, Some(ByRole(Mashak))),
        ProcessStep(4, "בדיקת שלמות כל המסמכים", "כולל כל האישורים הכלכליים", false, Some(ByRole(Mashak))),
        ProcessStep(5, "חישוב הכנסה לנפש מול תקרות תשמ\"ש", "", true, Some(System)),
        ProcessStep(6, "בדיקת נכסים ורכוש", "", false, Some(ByRole(Mashak))),
        ProcessStep(7, "הזנת המלצה", "", false, Some(ByRole(Mashak))),
        ProcessStep(8, "מעקב אחר אישור קצינת ת\"ש", "", false, Some(ByRole(Mashak)))
      ],
      soldierActions := Some([
        "להביא תעודות זהות של ההורים + ספח (עם פירוט אחים)",
        "להביא תעודת נישואין של ההורים",
        "להביא תדפיס עו\"ש של ההורים (3 חודשים)",
        "להביא פירוט אשראי של ההורים (3 חודשים)",
        "להביא אישור ניהול חשבון של ההורים",
        "להביא ריכוז יתרות של ההורים",
        "להביא תלושי שכר של ההורים (3 חודשים)",
        "להביא אישור קצבאות מביטוח לאומי (אם רלוונטי)",
        "להביא אישורי פנסיה (אם רלוונטי)",
        "להשיג ויתור סודיות חתום מההורים",
        "לחתום על הצהרת מהימנות",
        "להביא אישור רכב (אם קיים)",
        "להביא אישור נכסים (אם קיים)"
      ]),
      mashakActions := Some([
        "לפתוח בקשה במערכת \"אנשים\"",
        "להחתים את החייל על הצהרה",
        "לקבל ויתור סודיות מההורים",
        "לבדוק שלמות כל המסמכים הכלכליים",
        "לחשב הכנסה לנפש",
        "לבדוק נכסים ורכוש",
        "להזין המלצה",
        "לעקוב אחר אישור קצינת ת\"ש"
      ]),
      slaHours := 336,
      lastUpdated := now
    )
  }

  /** The requirements of the `TashmashMarried` template. */
  function TashmashMarriedRequirements(): seq<Requirement>
  {
    [
      IncomeDeclaration,
      Requirement("marriage_cert", "תעודת נישואין / אישור ידועים בציבור", None, File, true, None, None, Some(Soldier)),
      Requirement("ids", "צילום ת.ז של בני הזוג + ספחים", Some("סטטוס נשוי מעודכן"), File, true, None, Some(true), Some(Soldier)),
      Requirement("rent_contract", "חוזה שכירות על שם בני הזוג", Some("בתוקף, חתום ע\"י שניהם"), File, true, None, None, Some(Soldier))
    ] +
    AssignTo(EconomicDocsSpouse, Soldier) +
    [
      Requirement("joint_bank_3m", "דפי חשבון בנק משותפים (3 חודשים)", Some("אם קיים חשבון משותף"), File, false, None, Some(true), Some(Soldier))
    ]
  }

  /** The `tashmash-married` template. */
  function TashmashMarried(now: string): RequestTemplate
  {
    RequestTemplate(
      id := "tashmash-married",
      title := "תשמ\"ש נשוי (ללא ילדים)",
      category := "tashmash",
      shortDescription := "סיוע לחייל נשוי המתגורר עם בן/בת זוגו.",
      eligibilityCriteria := [
        "החייל נשוי או ידוע בציבור",
        "הזוג מתגורר יחד",
        "אין ילדים משותפים",
        "הכנסת בן/בת הזוג נמוכה מהתקרה"
      ],
      aiKeywords := [
        "נשוי",
        "ידוע בציבור",
        "אישה",
        "בעל",
        "זוג",
        "מתגורר עם",
        "חתונה",
        "תשמ\"ש נשוי"
      ],
      approvingAuthority := "קצינת ת\"ש יחידה",
      requiresHomeVisit := false,
      requiresDeclaration := true,
      procedure30Days := Some(30),
      relatedBenefits := Some([
        "הלנה",
        "שכ\"ד",
        "הוצאות אחזקה"
      ]),
      requirements := TashmashMarriedRequirements(),
      workflow := [
        ProcessStep(1, "פתיחת בקשה במערכת \"אנשים\"", "", false, Some(ByRole(Mashak))),
        ProcessStep(2, "החתמת החייל ובן/בת הזוג על הצהרה", "", false, Some(ByRole(Mashak))),
        ProcessStep(3, "בדיקת שלמות מסמכים", "כולל כל האישורים הכלכליים", false, Some(ByRole(Mashak))),
        ProcessStep(4, "חישוב הכנסה לנפש", "", true, Some(System)),
        ProcessStep(5, "הזנת המלצה", "", false, Some(ByRole(Mashak)))
      ],
      soldierActions := Some([
        "להביא תעודת נישואין",
        "להביא ת.ז מעודכנת (סטטוס נשוי) של שני בני הזוג",
        "להביא חוזה שכירות על שם שניהם",
        "להביא תדפיס עו\"ש של בן/בת הזוג (3 חודשים)",
        "להביא פירוט אשראי של בן/בת הזוג (3 חודשים)",
        "להביא תלושי שכר של בן/בת הזוג",
        "לחתום על הצהרת מהימנות"
      ]),
      mashakActions := Some([
        "לפתוח בקשה במערכת",
        "להחתים את בני הזוג על הצהרה",
        "לבדוק שלמות מסמכים כלכליים",
        "לחשב הכנסה לנפש",
        "להזין המלצה"
      ]),
      slaHours := 336,
      lastUpdated := now
    )
  }

  /** The requirements of the `TashmashPregnancy` template. */
  function TashmashPregnancyRequirements(): seq<Requirement>
  {
    [
      IncomeDeclaration,
      Requirement("pregnancy_cert", "אישור רפואי על הריון", Some("חובה לציין: שבוע הריון, תאריך לידה משוער, חתימת רופא וחותמת"), File, true, None, None, Some(Soldier)),
      Requirement("husband_id", "צילום ת.ז של הבעל", Some("אם נשואה"), File, false, None, None, Some(Soldier)),
      Requirement("marriage_cert", "תעודת נישואין", Some("אם נשואה"), File, false, None, None, Some(Soldier))
    ]
  }

  /** The `tashmash-pregnancy` template. */
  function TashmashPregnancy(now: string): RequestTemplate
  {
    RequestTemplate(
      id := "tashmash-pregnancy",
      title := "תשמ\"ש הריון (שבוע 14+)",
      category := "tashmash",
      shortDescription := "הכרה לצורך מענק לידה וציוד.",
      eligibilityCriteria := [
        "החיילת בהריון שבוע 14 ומעלה",
        "אישור רפואי המציין את שבוע ההריון ותאריך לידה משוער"
      ],
      aiKeywords := [
        "הריון",
        "בהריון",
        "בן",
        "ילד",
        "תינוק",
        "לידה",
        "בטן",
        "נשים",
        "חיילת",
        "תשמ\"ש הריון"
      ],
      approvingAuthority := "קצינת ת\"ש יחידה",
      requiresHomeVisit := false,
      requiresDeclaration := true,
      procedure30Days := Some(30),
      relatedBenefits := Some([
        "שמירת הריון",
        "חופשת לידה",
        "תקופת הורות"
      ]),
      requirements := TashmashPregnancyRequirements(),
      workflow := [
        ProcessStep(1, "פתיחת בקשה במערכת \"אנשים\"", "", false, Some(ByRole(Mashak))),
        ProcessStep(2, "בדיקת שבוע 14+ באישור", "", false, Some(ByRole(Mashak))),
        ProcessStep(3, "הזנת המלצה", "", false, Some(ByRole(Mashak))),
        ProcessStep(4, "עדכון מערכות לקראת לידה", "", false, Some(ByRole(Mashak)))
      ],
      soldierActions := Some([
        "להביא אישור רפואי עם שבוע הריון ותאריך לידה משוער",
        "לחתום על הצהרת מהימנות"
      ]),
      mashakActions := Some([
        "לפתוח בקשה",
        "לבדוק שבוע 14+",
        "להזין המלצה",
        "לעדכן מערכות"
      ]),
      slaHours := 168,
      lastUpdated := now
    )
  }

  /** The requirements of the `TashmashMarriedChild` template. */
  function TashmashMarriedChildRequirements(): seq<Requirement>
  {
    [
      IncomeDeclaration,
      Requirement("marriage_cert", "תעודת נישואין", None, File, true, None, None, Some(Soldier)),
      Requirement("child_birth_cert", "תעודת לידה של הילד/ים", None, File, true, None, Some(true), Some(Soldier)),
      Requirement("ids", "ת.ז של כל בני המשפחה + ספחים", None, File, true, None, Some(true), Some(Soldier)),
      Requirement("rent_contract", "חוזה שכירות", Some("על שם בני הזוג"), File, true, None, None, Some(Soldier))
    ] +
    AssignTo(EconomicDocsSpouse, Soldier) +
    [
      Requirement("joint_bank_3m", "דפי חשבון בנק משותפים (3 חודשים)", None, File, false, None, Some(true), Some(Soldier)),
      Requirement("child_allowance", "אישור קצבת ילדים", Some("מביטוח לאומי"), File, false, None, None, Some(Soldier))
    ]
  }

  /** The `tashmash-married-child` template. */
  function TashmashMarriedChild(now: string): RequestTemplate
  {
    RequestTemplate(
      id := "tashmash-married-child",
      title := "תשמ\"ש נשוי + ילד",
      category := "tashmash",
      shortDescription := "סיוע לחייל נשוי עם ילד אחד לפחות.",
      eligibilityCriteria := [
        "החייל נשוי/ידוע בציבור",
        "יש לזוג ילד אחד לפחות",
        "הכנסת המשפחה נמוכה מהתקרה"
      ],
      aiKeywords := [
        "נשוי",
        "ילד",
        "ילדים",
        "תינוק",
        "בן",
        "בת",
        "אבא",
        "אמא",
        "משפחה",
        "תשמ\"ש נשוי ילד"
      ],
      approvingAuthority := "קצינת ת\"ש יחידה",
      requiresHomeVisit := false,
      requiresDeclaration := true,
      procedure30Days := Some(30),
      relatedBenefits := Some([
        "הלנה",
        "שכ\"ד",
        "דמי כלכלה",
        "הוצאות אחזקה"
      ]),
      requirements := TashmashMarriedChildRequirements(),
      workflow := [
        ProcessStep(1, "פתיחת בקשה", "", false, Some(ByRole(Mashak))),
        ProcessStep(2, "בדיקת מסמכים", "כולל כל האישורים הכלכליים", false, Some(ByRole(Mashak))),
        ProcessStep(3, "חישוב הכנסה לנפש", "כולל קצבת ילדים", true, Some(System)),
        ProcessStep(4, "הזנת המלצה", "", false, Some(ByRole(Mashak)))
      ],
      soldierActions := Some([
        "להביא תעודת נישואין",
        "להביא תעודות לידה של הילדים",
        "להביא חוזה שכירות",
        "להביא אישורי הכנסה של בן/בת הזוג",
        "להביא תדפיס עו\"ש ופירוט אשראי של בן/בת הזוג",
        "להביא אישור קצבת ילדים (אם רלוונטי)"
      ]),
      mashakActions := Some([
        "לפתוח בקשה",
        "לבדוק מסמכים כלכליים",
        "לחשב הכנסה לנפש",
        "להזין המלצה"
      ]),
      slaHours := 336,
      lastUpdated := now
    )
  }

  /** The requirements of the `LoneSoldierMuvhak` template. */
  function LoneSoldierMuvhakRequirements(): seq<Requirement>
  {
    [
      IncomeDeclaration,
      Requirement("passport_entries", "תמצית רישום כניסות ויציאות", Some("של ההורים והחייל ממשרד הפנים"), File, true, None, Some(true), Some(Soldier)),
      Requirement("passport", "דרכון החייל", Some("עם חותמות כניסה/יציאה"), File, true, None, None, Some(Soldier)),
      Requirement("parents_passport", "דרכוני ההורים", Some("עם חותמות"), File, true, None, Some(true), Some(Soldier)),
      Requirement("parents_abroad_proof", "אישור עבודה/מגורים של ההורים בחו\"ל", Some("חוזה שכירות, אישור מעסיק, חשבונות חשמל/מים"), File, true, None, Some(true), Some(Soldier)),
      Requirement("parents_letter", "מכתב מההורים", Some("הסבר על מצבם והיעדרם מהארץ, חתום ומתורגם"), File, true, None, None, Some(Soldier)),
      Requirement("personal_letter", "מכתב אישי של החייל", Some("תיאור המצב והקשר עם המשפחה"), File, true, None, None, Some(Soldier)),
      Requirement("aliyah_cert", "אישור עלייה", Some("אם רלוונטי"), File, false, None, None, Some(Soldier)),
      Requirement("home_visit", "דו\"ח ביקור בית", Some("מהמש\"קית"), File, true, None, None, Some(Mashak))
    ]
  }

  /** The `lone-soldier-muvhak` template. */
  function LoneSoldierMuvhak(now: string): RequestTemplate
  {
    RequestTemplate(
      id := "lone-soldier-muvhak",
      title := "חייל בודד מובהק",
      category := "lone_soldier",
      shortDescription := "הכרה כבודד מובהק - הורים מתגוררים בחו\"ל.",
      eligibilityCriteria := [
        "הורי החייל מתגוררים דרך קבע בחו\"ל",
        "החייל עלה לארץ לבדו או עם משפחתו",
        "אין קרובי משפחה מדרגה ראשונה בארץ שיכולים לתמוך"
      ],
      aiKeywords := [
        "עולה",
        "חו\"ל",
        "הורים בחו\"ל",
        "ארה\"ב",
        "אירופה",
        "בדד",
        "לבד",
        "משפחה בחו\"ל",
        "לא נמצאים בארץ",
        "בודד מובהק"
      ],
      approvingAuthority := "רמ\"ד פרט (מפקדה)",
      requiresHomeVisit := true,
      requiresDeclaration := true,
      procedure30Days := Some(60),
      relatedBenefits := Some([
        "מימון טיסות",
        "שכ\"ד",
        "מענקים",
        "בית חייל",
        "הלנה"
      ]),
      requirements := LoneSoldierMuvhakRequirements(),
      workflow := [
        ProcessStep(1, "פתיחת בקשה", "", false, Some(ByRole(Mashak))),
        ProcessStep(2, "ראיון עומק עם החייל", "", false, Some(ByRole(Mashak))),
        ProcessStep(3, "ביקור בית (חובה)", "", false, Some(ByRole(Mashak))),
        ProcessStep(4, "בדיקת כניסות/יציאות", "", true, Some(System)),
        ProcessStep(5, "אימות מגורי הורים בחו\"ל", "", false, Some(ByRole(Mashak))),
        ProcessStep(6, "הזנת המלצה", "", false, Some(ByRole(Mashak))),
        ProcessStep(7, "שליחה לרמ\"ד פרט לאישור", "", false, Some(ByRole(Mashak)))
      ],
      soldierActions := Some([
        "להביא תמצית רישום כניסות/יציאות (משרד הפנים)",
        "להביא דרכון עם חותמות",
        "להביא דרכוני הורים",
        "להביא אישורים על מגורי ההורים בחו\"ל",
        "לכתוב מכתב אישי",
        "להביא מכתב מההורים (חתום ומתורגם)",
        "לחתום על הצהרת מהימנות"
      ]),
      mashakActions := Some([
        "לפתוח בקשה",
        "לערוך ראיון עומק",
        "לבצע ביקור בית (חובה)",
        "לבדוק כניסות/יציאות",
        "לאמת מגורי הורים בחו\"ל",
        "להזין המלצה",
        "לשלוח לרמ\"ד פרט"
      ]),
      slaHours := 504,
      lastUpdated := now
    )
  }

  /** The requirements of the `LoneSoldierHame` template. */
  function LoneSoldierHameRequirements(): seq<Requirement>
  {
    [
      IncomeDeclaration,
      Requirement("social_worker_report", "דו\"ח עו\"ס מהרשות המקומית", Some("המעיד על הנתק/מצב משפחתי"), File, true, None, None, Some(Soldier)),
      Requirement("affidavit_soldier", "תצהיר עו\"ד של החייל", Some("מפורט, חתום על ידי עורך דין"), File, true, None, None, Some(Soldier)),
      Requirement("affidavit_witness1", "תצהיר עד 1", Some("אדם המכיר את המצב המשפחתי"), File, true, None, None, Some(Soldier)),
      Requirement("affidavit_witness2", "תצהיר עד 2", Some("אדם נוסף המכיר את המצב"), File, true, None, None, Some(Soldier)),
      Requirement("personal_letter", "מכתב אישי מפורט", Some("תיאור השתלשלות האירועים, תאריכים, פרטים"), File, true, None, None, Some(Soldier)),
      Requirement("bank_check", "דפי חשבון בנק (6 חודשים)", Some("לשלילת העברות מההורים"), File, true, None, Some(true), Some(Soldier)),
      Requirement("parents_id", "צילום ת.ז הורים", Some("לאימות זהות"), File, false, None, Some(true), Some(Soldier)),
      Requirement("home_visit", "דו\"ח ביקור בית", Some("מהמש\"קית"), File, true, None, None, Some(Mashak)),
      Requirement("mashak_report", "דו\"ח מש\"קית מפורט", Some("המלצה ותיאור המקרה"), File, true, None, None, Some(Mashak))
    ]
  }

  /** The `lone-soldier-hame` template. */
  function LoneSoldierHame(now: string): RequestTemplate
  {
    RequestTemplate(
      id := "lone-soldier-hame",
      title := "חייל בודד חע\"מ (חסר עורף משפחתי)",
      category := "lone_soldier",
      shortDescription := "הכרה כבודד חסר עורף משפחתי - אין קשר עם ההורים.",
      eligibilityCriteria := [
        "לחייל הורים בארץ",
        "אין קשר עם ההורים או קשר מינימלי",
        "ההורים אינם תומכים כלכלית/רגשית",
        "המצב מוכח ע\"י גורמים מקצועיים"
      ],
      aiKeywords := [
        "אין קשר עם הורים",
        "נתק",
        "ריחוק",
        "בעיות בבית",
        "משפחה לא תומכת",
        "אלימות במשפחה",
        "עזבתי הבית",
        "לא מדבר עם הורים",
        "חע\"מ"
      ],
      approvingAuthority := "וועדת בודדים פיקודית/חילית",
      requiresHomeVisit := true,
      requiresDeclaration := true,
      procedure30Days := Some(60),
      relatedBenefits := Some([
        "שכ\"ד",
        "מענקים",
        "בית חייל",
        "הלנה"
      ]),
      requirements := LoneSoldierHameRequirements(),
      workflow := [
        ProcessStep(1, "פתיחת בקשה", "", false, Some(ByRole(Mashak))),
        ProcessStep(2, "ראיון עומק מקיף", "", false, Some(ByRole(Mashak))),
        ProcessStep(3, "ביקור בית (חובה)", "", false, Some(ByRole(Mashak))),
        ProcessStep(4, "תיאום עם עו\"ס בקהילה", "", false, Some(ByRole(Mashak))),
        ProcessStep(5, "בדיקת חשבונות בנק", "", false, Some(ByRole(Mashak))),
        ProcessStep(6, "הזנת המלצה מפורטת", "", false, Some(ByRole(Mashak))),
        ProcessStep(7, "הכנה לוועדת בודדים", "", false, Some(ByRole(Mashak))),
        ProcessStep(8, "ליווי החייל לוועדה", "", false, Some(ByRole(Mashak)))
      ],
      soldierActions := Some([
        "להשיג דו\"ח עו\"ס מהרשות המקומית",
        "להכין תצהיר עו\"ד מפורט",
        "להשיג תצהירים מ-2 עדים",
        "לכתוב מכתב אישי מפורט עם תאריכים",
        "להביא דפי חשבון בנק (6 חודשים)"
      ]),
      mashakActions := Some([
        "לפתוח בקשה",
        "לערוך ראיון עומק מקיף",
        "לבצע ביקור בית (חובה)",
        "לתאם עם עו\"ס בקהילה",
        "לבדוק חשבונות בנק",
        "להזין המלצה מפורטת",
        "להכין לוועדת בודדים",
        "ללוות לוועדה"
      ]),
      slaHours := 720,
      lastUpdated := now
    )
  }

  /** The requirements of the `SuidHelp` template. */
  function SuidHelpRequirements(): seq<Requirement>
  {
    [
      IncomeDeclaration,
      Requirement("parents_id", "ת.ז של הורים + ספח", None, File, true, None, Some(true), Some(Soldier))
    ] +
    Partial(EconomicDocsParents) +
    [
      Requirement("support_letter", "מכתב המתאר את הקשר המשפחתי", None, File, false, None, None, Some(Soldier)),
      Requirement("home_visit", "דו\"ח ביקור בית", None, File, true, None, None, Some(Mashak))
    ]
  }

  /** The `suid-help` template. */
  function SuidHelp(now: string): RequestTemplate
  {
    RequestTemplate(
      id := "suid-help",
      title := "זכאי סיוע",
      category := "lone_soldier",
      shortDescription := "חייל במערכת יחסים מורכבת עם הוריו - קשר חלקי.",
      eligibilityCriteria := [
        "לחייל הורים בארץ",
        "קיים קשר חלקי עם ההורים",
        "ההורים מהווים תא משפחתי תומך באופן חלקי",
        "אינו עומד בקריטריונים לחע\"מ"
      ],
      aiKeywords := [
        "זכאי סיוע",
        "קשר חלקי",
        "תמיכה חלקית",
        "קשר מורכב",
        "משפחה לא מלאה"
      ],
      approvingAuthority := "קצינת ת\"ש יחידה",
      requiresHomeVisit := true,
      requiresDeclaration := true,
      procedure30Days := Some(30),
      relatedBenefits := Some([
        "שכ\"ד חלקי",
        "תווי קנייה"
      ]),
      requirements := SuidHelpRequirements(),
      workflow := [
        ProcessStep(1, "פתיחת בקשה", "", false, Some(ByRole(Mashak))),
        ProcessStep(2, "ראיון עם החייל", "", false, Some(ByRole(Mashak))),
        ProcessStep(3, "ביקור בית", "", false, Some(ByRole(Mashak))),
        ProcessStep(4, "בדיקת הכנסות הורים", "", true, Some(System)),
        ProcessStep(5, "הזנת המלצה", "", false, Some(ByRole(Mashak)))
      ],
      soldierActions := Some([
        "להביא ת.ז של ההורים",
        "להביא אישורים כלכליים של ההורים",
        "לכתוב מכתב על הקשר המשפחתי"
      ]),
      mashakActions := Some([
        "לפתוח בקשה",
        "לראיין את החייל",
        "לבצע ביקור בית",
        "לבדוק הכנסות הורים",
        "להזין המלצה"
      ]),
      slaHours := 336,
      lastUpdated := now
    )
  }

  /** The requirements of the `RentParticipation` template. */
  function RentParticipationRequirements(): seq<Requirement>
  {
    [
      Requirement("rent_contract", "חוזה שכירות מקורי", Some("חתום ע\"י החייל ובעל הדירה, תקף לשנה לפחות"), File, true, None, None, Some(Soldier)),
      Requirement("landlord_id", "צילום ת.ז של בעל הדירה", None, File, true, None, None, Some(Soldier)),
      Requirement("landlord_bank", "פרטי חשבון בנק של בעל הדירה", Some("להעברת התשלום"), File, true, None, None, Some(Soldier)),
      Requirement("bank_ownership", "אישור בעלות על חשבון הבנק של החייל", None, File, true, None, None, Some(Soldier)),
      Requirement("arnona", "חשבון ארנונה", Some("על שם בעל הדירה"), File, false, None, None, Some(Soldier)),
      Requirement("electric", "חשבון חשמל", Some("על שם החייל"), File, false, None, None, Some(Soldier)),
      Requirement("lone_soldier_cert", "אישור חייל בודד", Some("אם קיים"), File, false, None, None, Some(Soldier)),
      Requirement("home_visit", "דו\"ח ביקור בית", None, File, true, None, None, Some(Mashak))
    ]
  }

  /** The `rent-participation` template. */
  function RentParticipation(now: string): RequestTemplate
  {
    RequestTemplate(
      id := "rent-participation",
      title := "השתתפות בשכ\"ד",
      category := "housing",
      shortDescription := "סיוע במימון שכר דירה לחיילים בודדים וזכאי סיוע.",
      eligibilityCriteria := [
        "חייל בודד מובהק או חע\"מ או זכאי סיוע",
        "שוכר דירה באופן פרטי",
        "חוזה שכירות על שמו"
      ],
      aiKeywords := [
        "שכר דירה",
        "דירה",
        "שכ\"ד",
        "שוכר",
        "מגורים",
        "הוצאה על דירה",
        "בעל הבית",
        "השתתפות בשכר"
      ],
      approvingAuthority := "קצינת ת\"ש יחידה / מדור מיעוטים",
      requiresHomeVisit := true,
      requiresDeclaration := false,
      procedure30Days := Some(30),
      relatedBenefits := Some([
        "הוצאות אחזקה"
      ]),
      requirements := RentParticipationRequirements(),
      workflow := [
        ProcessStep(1, "בדיקת חוזה השכירות", "וידוא תוקף, שמות, סכום", false, Some(ByRole(Mashak))),
        ProcessStep(2, "בדיקת פרטי בעל הדירה", "", false, Some(ByRole(Mashak))),
        ProcessStep(3, "ביקור בית", "", false, Some(ByRole(Mashak))),
        ProcessStep(4, "חישוב גובה הסיוע", "", true, Some(System)),
        ProcessStep(5, "הזנת פרטי חשבון בנק", "", false, Some(ByRole(Mashak))),
        ProcessStep(6, "הזנת המלצה", "", false, Some(ByRole(Mashak)))
      ],
      soldierActions := Some([
        "להביא חוזה שכירות מקורי (תקף שנה לפחות)",
        "להביא ת.ז של בעל הדירה",
        "להביא פרטי חשבון בנק של בעל הדירה",
        "להביא אישור בעלות על חשבון הבנק שלי",
        "להביא חשבון ארנונה",
        "להביא חשבון חשמל על שמי"
      ]),
      mashakActions := Some([
        "לבדוק את החוזה",
        "לאמת פרטי בעל הדירה",
        "לבצע ביקור בית",
        "לחשב גובה הסיוע",
        "להזין פרטי חשבון",
        "להזין המלצה"
      ]),
      slaHours := 168,
      lastUpdated := now
    )
  }

  /** The requirements of the `BeitHachayel` template. */
  function BeitHachayelRequirements(): seq<Requirement>
  {
    [
      Requirement("commander_approval", "אישור מפקד", Some("המלצה על הצורך בפתרון"), File, true, None, None, Some(Commander)),
      Requirement("photo", "תמונת פספורט", None, File, true, None, None, Some(Soldier)),
      Requirement("lone_cert", "אישור חייל בודד", None, File, false, None, None, Some(Soldier))
    ]
  }

  /** The `beit-hachayel` template. */
  function BeitHachayel(now: string): RequestTemplate
  {
    RequestTemplate(
      id := "beit-hachayel",
      title := "בית החייל",
      category := "housing",
      shortDescription := "פתרון לינה בבית החייל לחיילים זקוקים.",
      eligibilityCriteria := [
        "חייל בודד / זכאי סיוע / נשוי",
        "זקוק לפתרון לינה",
        "אין פתרון דיור אחר"
      ],
      aiKeywords := [
        "בית חייל",
        "לינה",
        "לישון",
        "איפה לישון",
        "מקום לינה",
        "חדר"
      ],
      approvingAuthority := "קצינת ת\"ש יחידה",
      requiresHomeVisit := false,
      requiresDeclaration := false,
      procedure30Days := Some(14),
      relatedBenefits := None,
      requirements := BeitHachayelRequirements(),
      workflow := [
        ProcessStep(1, "בדיקת זכאות", "", false, Some(ByRole(Mashak))),
        ProcessStep(2, "בדיקת מקום פנוי", "", false, Some(ByRole(Mashak))),
        ProcessStep(3, "תיאום עם בית החייל", "", false, Some(ByRole(Mashak))),
        ProcessStep(4, "הנפקת הפנייה", "", false, Some(ByRole(Mashak)))
      ],
      soldierActions := Some([
        "להביא אישור מפקד",
        "להביא תמונת פספורט"
      ]),
      mashakActions := Some([
        "לבדוק זכאות",
        "לבדוק מקום פנוי",
        "לתאם עם בית החייל",
        "להנפיק הפנייה"
      ]),
      slaHours := 48,
      lastUpdated := now
    )
  }

  /** The requirements of the `MaintenanceExpenses` template. */
  function MaintenanceExpensesRequirements(): seq<Requirement>
  {
    [
      Requirement("rent_contract", "חוזה שכירות", None, File, true, None, None, Some(Soldier)),
      Requirement("electric_bills", "חשבונות חשמל (3 חודשים)", None, File, true, None, Some(true), Some(Soldier)),
      Requirement("water_bills", "חשבונות מים (3 חודשים)", None, File, true, None, Some(true), Some(Soldier)),
      Requirement("gas_bills", "חשבונות גז (אם רלוונטי)", None, File, false, None, Some(true), Some(Soldier)),
      Requirement("internet_bills", "חשבונות אינטרנט", None, File, false, None, Some(true), Some(Soldier)),
      Requirement("arnona", "חשבון ארנונה", None, File, false, None, None, Some(Soldier))
    ]
  }

  /** The `maintenance-expenses` template. */
  function MaintenanceExpenses(now: string): RequestTemplate
  {
    RequestTemplate(
      id := "maintenance-expenses",
      title := "הוצאות אחזקת דירה",
      category := "housing",
      shortDescription := "השתתפות בהוצאות אחזקה עבור חייל בודד או נשוי.",
      eligibilityCriteria := [
        "חייל בודד מובהק / חע\"מ",
        "או חייל נשוי + ילד",
        "מתגורר בדירה שכורה"
      ],
      aiKeywords := [
        "חשמל",
        "מים",
        "גז",
        "ארנונה",
        "הוצאות דירה",
        "חשבונות",
        "תשלומים",
        "אחזקה"
      ],
      approvingAuthority := "קצינת ת\"ש יחידה",
      requiresHomeVisit := false,
      requiresDeclaration := false,
      procedure30Days := Some(30),
      relatedBenefits := None,
      requirements := MaintenanceExpensesRequirements(),
      workflow := [
        ProcessStep(1, "בדיקת חשבונות", "", false, Some(ByRole(Mashak))),
        ProcessStep(2, "חישוב גובה הסיוע", "", true, Some(System)),
        ProcessStep(3, "הזנת המלצה", "", false, Some(ByRole(Mashak)))
      ],
      soldierActions := Some([
        "להביא חוזה שכירות",
        "להביא חשבונות חשמל (3 חודשים)",
        "להביא חשבונות מים (3 חודשים)",
        "להביא חשבונות גז (אם רלוונטי)"
      ]),
      mashakActions := Some([
        "לבדוק חשבונות",
        "לחשב גובה הסיוע",
        "להזין המלצה"
      ]),
      slaHours := 168,
      lastUpdated := now
    )
  }

  /** The requirements of the `HelanaPart` template. */
  function HelanaPartRequirements(): seq<Requirement>
  {
    [
      IncomeDeclaration,
      Requirement("home_visit", "דו\"ח ביקור בית", None, File, true, None, None, Some(Mashak)),
      Requirement("commander_approval", "אישור מפקד", None, File, true, None, None, Some(Commander)),
      Requirement("personal_letter", "מכתב הסבר מהחייל", Some("מדוע נדרשת ההלנה"), File, true, None, None, Some(Soldier))
    ]
  }

  /** The `helana-part` template. */
  function HelanaPart(now: string): RequestTemplate
  {
    RequestTemplate(
      id := "helana-part",
      title := "הלנה מטעמי פרט",
      category := "helana",
      shortDescription := "לינה בבית הפרטי של החייל מסיבות סוציאליות/אישיות.",
      eligibilityCriteria := [
        "נסיבות סוציאליות המצדיקות הלנה",
        "אישור מפקד",
        "ביקור בית עדכני"
      ],
      aiKeywords := [
        "לישון בבית",
        "הלנה",
        "לינה",
        "לילות",
        "לילה",
        "אני רוצה לישון בבית",
        "לחזור הביתה",
        "הלנה מטעמי פרט"
      ],
      approvingAuthority := "קצינת ת\"ש יחידה",
      requiresHomeVisit := true,
      requiresDeclaration := true,
      procedure30Days := Some(14),
      relatedBenefits := None,
      requirements := HelanaPartRequirements(),
      workflow := [
        ProcessStep(1, "ראיון עם החייל", "", false, Some(ByRole(Mashak))),
        ProcessStep(2, "ביקור בית", "", false, Some(ByRole(Mashak))),
        ProcessStep(3, "הזנת המלצה", "", false, Some(ByRole(Mashak))),
        ProcessStep(4, "החתמת מפקד", "", false, Some(ByRole(Mashak))),
        ProcessStep(5, "שליחה לקצינת ת\"ש", "", false, Some(ByRole(Mashak)))
      ],
      soldierActions := Some([
        "לכתוב מכתב הסבר",
        "לחתום על הצהרת מהימנות",
        "לקבל אישור מפקד"
      ]),
      mashakActions := Some([
        "לראיין את החייל",
        "לבצע ביקור בית",
        "להזין המלצה",
        "להחתים מפקד",
        "לשלוח לקצינת ת\"ש"
      ]),
      slaHours := 168,
      lastUpdated := now
    )
  }

  /** The requirements of the `HelanaDistance` template. */
  function HelanaDistanceRequirements(): seq<Requirement>
  {
    [
      Requirement("address_proof", "אישור כתובת", Some("ת.ז עם כתובת מעודכנת"), File, true, None, None, Some(Soldier)),
      Requirement("waze_screenshot", "צילום מסך וויז", Some("זמן נסיעה"), File, false, None, None, Some(Soldier))
    ]
  }

  /** The `helana-distance` template. */
  function HelanaDistance(now: string): RequestTemplate
  {
    RequestTemplate(
      id := "helana-distance",
      title := "הלנה מטעמי מרחק",
      category := "helana",
      shortDescription := "לינה בבית עקב מרחק גיאוגרפי.",
      eligibilityCriteria := [
        "מקום המגורים רחוק מהיחידה",
        "מעל 60 דקות נסיעה",
        "הפחתת נסיעות"
      ],
      aiKeywords := [
        "מרחק",
        "רחוק",
        "נסיעה ארוכה",
        "שעות על הכביש",
        "גוש דן",
        "דרום",
        "צפון",
        "קיבוץ",
        "מושב",
        "הלנה מרחק"
      ],
      approvingAuthority := "קצינת ת\"ש יחידה",
      requiresHomeVisit := false,
      requiresDeclaration := false,
      procedure30Days := Some(14),
      relatedBenefits := None,
      requirements := HelanaDistanceRequirements(),
      workflow := [
        ProcessStep(1, "בדיקת כתובת ומרחק", "", true, Some(System)),
        ProcessStep(2, "הזנת המלצה", "", false, Some(ByRole(Mashak))),
        ProcessStep(3, "אישור קצינת ת\"ש", "", false, Some(ByRole(Mashak)))
      ],
      soldierActions := Some([
        "להביא אישור כתובת מעודכן",
        "לצלם מסך וויז עם זמן נסיעה"
      ]),
      mashakActions := Some([
        "לבדוק כתובת ומרחק",
        "להזין המלצה",
        "לקבל אישור קצינת ת\"ש"
      ]),
      slaHours := 72,
      lastUpdated := now
    )
  }

  /** The requirements of the `Hakash1` template. */
  function Hakash1Requirements(): seq<Requirement>
  {
    [
      Requirement("request_form", "טופס בקשה", None, File, true, None, None, Some(Soldier)),
      Requirement("commander_approval", "אישור מפקד", None, File, true, None, None, Some(Commander))
    ]
  }

  /** The `hakash-1` template. */
  function Hakash1(now: string): RequestTemplate
  {
    RequestTemplate(
      id := "hakash-1",
      title := "הת\"ש 1",
      category := "hakash",
      shortDescription := "לינה בבית לילה אחד בשבוע.",
      eligibilityCriteria := [
        "זכאות מוכחת",
        "סיבה סוציאלית/אישית",
        "אישור מפקד"
      ],
      aiKeywords := [
        "הת\"ש",
        "לילה אחד",
        "לישון בבית",
        "התש 1",
        "הקלה"
      ],
      approvingAuthority := "מפקד יחידה",
      requiresHomeVisit := false,
      requiresDeclaration := false,
      procedure30Days := Some(14),
      relatedBenefits := None,
      requirements := Hakash1Requirements(),
      workflow := [
        ProcessStep(1, "ראיון", "", false, Some(ByRole(Mashak))),
        ProcessStep(2, "בדיקת הזכאות", "", false, Some(ByRole(Mashak))),
        ProcessStep(3, "הזנת המלצה", "", false, Some(ByRole(Mashak)))
      ],
      soldierActions := Some([
        "למלא טופס בקשה",
        "לקבל אישור מפקד"
      ]),
      mashakActions := Some([
        "לראיין את החייל",
        "לבדוק זכאות",
        "להזין המלצה"
      ]),
      slaHours := 72,
      lastUpdated := now
    )
  }

  /** The requirements of the `Hakash2` template. */
  function Hakash2Requirements(): seq<Requirement>
  {
    [
      Requirement("request_form", "טופס בקשה מפורט", None, File, true, None, None, Some(Soldier)),
      Requirement("home_visit", "דו\"ח ביקור בית", None, File, true, None, None, Some(Mashak)),
      Requirement("commander_approval", "אישור מפקד", None, File, true, None, None, Some(Commander))
    ]
  }

  /** The `hakash-2` template. */
  function Hakash2(now: string): RequestTemplate
  {
    RequestTemplate(
      id := "hakash-2",
      title := "הת\"ש 2",
      category := "hakash",
      shortDescription := "לינה בבית 2 לילות בשבוע.",
      eligibilityCriteria := [
        "מצב סוציאלי מורכב",
        "אישור קצינת ת\"ש",
        "ביקור בית"
      ],
      aiKeywords := [
        "הת\"ש 2",
        "שני לילות",
        "לישון פעמיים",
        "התש 2"
      ],
      approvingAuthority := "קצינת ת\"ש יחידה",
      requiresHomeVisit := true,
      requiresDeclaration := false,
      procedure30Days := Some(14),
      relatedBenefits := None,
      requirements := Hakash2Requirements(),
      workflow := [
        ProcessStep(1, "ראיון עומק", "", false, Some(ByRole(Mashak))),
        ProcessStep(2, "ביקור בית", "", false, Some(ByRole(Mashak))),
        ProcessStep(3, "הזנת המלצה מפורטת", "", false, Some(ByRole(Mashak))),
        ProcessStep(4, "שליחה לקצינת ת\"ש", "", false, Some(ByRole(Mashak)))
      ],
      soldierActions := Some([
        "למלא טופס בקשה מפורט",
        "לקבל אישור מפקד"
      ]),
      mashakActions := Some([
        "לערוך ראיון עומק",
        "לבצע ביקור בית",
        "להזין המלצה מפורטת",
        "לשלוח לקצינת ת\"ש"
      ]),
      slaHours := 168,
      lastUpdated := now
    )
  }

  /** The requirements of the `Hakash3` template. */
  function Hakash3Requirements(): seq<Requirement>
  {
    [
      Requirement("request_form", "טופס בקשה מפורט", None, File, true, None, None, Some(Soldier)),
      Requirement("home_visit", "דו\"ח ביקור בית", None, File, true, None, None, Some(Mashak)),
      Requirement("social_report", "דו\"ח סוציאלי", None, File, true, None, None, Some(Mashak)),
      Requirement("commander_approval", "אישור מפקד", None, File, true, None, None, Some(Commander))
    ]
  }

  /** The `hakash-3` template. */
  function Hakash3(now: string): RequestTemplate
  {
    RequestTemplate(
      id := "hakash-3",
      title := "הת\"ש 3",
      category := "hakash",
      shortDescription := "לינה בבית 3 לילות בשבוע.",
      eligibilityCriteria := [
        "מצב סוציאלי קשה",
        "אישור רמ\"ד פרט",
        "ביקור בית",
        "בד\"כ אוכלוסיות מיוחדות"
      ],
      aiKeywords := [
        "הת\"ש 3",
        "שלושה לילות",
        "מצב קשה",
        "משפחה מורכבת",
        "התש 3"
      ],
      approvingAuthority := "רמ\"ד פרט (מפקדה)",
      requiresHomeVisit := true,
      requiresDeclaration := false,
      procedure30Days := Some(30),
      relatedBenefits := None,
      requirements := Hakash3Requirements(),
      workflow := [
        ProcessStep(1, "ראיון עומק", "", false, Some(ByRole(Mashak))),
        ProcessStep(2, "ביקור בית", "", false, Some(ByRole(Mashak))),
        ProcessStep(3, "תיאום עם עו\"ס", "", false, Some(ByRole(Mashak))),
        ProcessStep(4, "הזנת המלצה", "", false, Some(ByRole(Mashak))),
        ProcessStep(5, "שליחה לרמ\"ד פרט", "", false, Some(ByRole(Mashak)))
      ],
      soldierActions := Some([
        "למלא טופס בקשה מפורט"
      ]),
      mashakActions := Some([
        "לערוך ראיון עומק",
        "לבצע ביקור בית",
        "לתאם עם עו\"ס",
        "להזין המלצה",
        "לשלוח לרמ\"ד פרט"
      ]),
      slaHours := 336,
      lastUpdated := now
    )
  }

  /** The requirements of the `WorkPermit` template. */
  function WorkPermitRequirements(): seq<Requirement>
  {
    AssignTo(EconomicDocsSoldier, Soldier) +
    [
      Requirement("debts", "אישורי חובות", Some("מכתבי דרישה, הוצאה לפועל"), File, false, None, Some(true), Some(Soldier)),
      Requirement("commander_approval", "אישור מפקד ישיר", None, File, true, None, None, Some(Commander)),
      Requirement("employer_letter", "מכתב מהמעסיק", Some("תנאי העסקה, שעות"), File, false, None, None, Some(Soldier))
    ]
  }

  /** The `work-permit` template. */
  function WorkPermit(now: string): RequestTemplate
  {
    RequestTemplate(
      id := "work-permit",
      title := "אישור עבודה פרטית",
      category := "economic",
      shortDescription := "היתר לעבוד בשעות הפנויות.",
      eligibilityCriteria := [
        "צורך כלכלי מוכח",
        "העבודה לא תפגע בשירות",
        "אישור מפקד"
      ],
      aiKeywords := [
        "עבודה",
        "לעבוד",
        "כסף",
        "משרה",
        "השלמת הכנסה",
        "מינוס בבנק",
        "חובות",
        "אישור עבודה"
      ],
      approvingAuthority := "מפקד היחידה (סא\"ל)",
      requiresHomeVisit := false,
      requiresDeclaration := false,
      procedure30Days := Some(14),
      relatedBenefits := None,
      requirements := WorkPermitRequirements(),
      workflow := [
        ProcessStep(1, "בדיקת הצורך הכלכלי", "", false, Some(ByRole(Mashak))),
        ProcessStep(2, "בדיקת השפעה על השירות", "", false, Some(ByRole(Mashak))),
        ProcessStep(3, "הזנת המלצה", "", false, Some(ByRole(Mashak))),
        ProcessStep(4, "שליחה למפקד היחידה", "", false, Some(ByRole(Mashak)))
      ],
      soldierActions := Some([
        "להביא תדפיס עו\"ש (3 חודשים)",
        "להביא פירוט אשראי (3 חודשים)",
        "להביא אישור ניהול חשבון",
        "להביא ריכוז יתרות",
        "להביא מכתב מהמעסיק",
        "לקבל אישור מפקד"
      ]),
      mashakActions := Some([
        "לבדוק את הצורך הכלכלי",
        "לבדוק השפעה על השירות",
        "להזין המלצה",
        "לשלוח למפקד היחידה"
      ]),
      slaHours := 72,
      lastUpdated := now
    )
  }

  /** The requirements of the `BzackGrant` template. */
  function BzackGrantRequirements(): seq<Requirement>
  {
    AssignTo(EconomicDocsSoldier, Soldier) +
    [
      Requirement("debts", "אישורי חובות/עיקולים", None, File, true, None, Some(true), Some(Soldier)),
      Requirement("execution", "אישור הוצאה לפועל", None, File, false, None, None, Some(Soldier)),
      Requirement("social_report", "דו\"ח מש\"קית", None, File, true, None, None, Some(Mashak))
    ]
  }

  /** The `bzack-grant` template. */
  function BzackGrant(now: string): RequestTemplate
  {
    RequestTemplate(
      id := "bzack-grant",
      title := "מענק בזק",
      category := "economic",
      shortDescription := "סיוע כספי מיידי למצוקה חריפה.",
      eligibilityCriteria := [
        "מצוקה כלכלית חריפה ומיידית",
        "אין יכולת התמודדות",
        "אישור קצינת ת\"ש"
      ],
      aiKeywords := [
        "מענק",
        "כסף מיידי",
        "חובות",
        "עיקול",
        "הוצאה לפועל",
        "ניתוק חשמל",
        "אין אוכל",
        "מצוקה",
        "חירום",
        "בזק"
      ],
      approvingAuthority := "מפקד היחידה",
      requiresHomeVisit := false,
      requiresDeclaration := false,
      procedure30Days := Some(7),
      relatedBenefits := None,
      requirements := BzackGrantRequirements(),
      workflow := [
        ProcessStep(1, "ראיון דחוף", "", false, Some(ByRole(Mashak))),
        ProcessStep(2, "בדיקת המצוקה", "", false, Some(ByRole(Mashak))),
        ProcessStep(3, "בדיקת אישורים כלכליים", "", false, Some(ByRole(Mashak))),
        ProcessStep(4, "הזנת המלצה דחופה", "", false, Some(ByRole(Mashak))),
        ProcessStep(5, "אישור מפקד", "", false, Some(ByRole(Commander)))
      ],
      soldierActions := Some([
        "להביא תדפיס עו\"ש (3 חודשים)",
        "להביא פירוט אשראי (3 חודשים)",
        "להביא אישור ניהול חשבון",
        "להביא ריכוז יתרות",
        "להביא אישורי חובות/עיקולים"
      ]),
      mashakActions := Some([
        "לערוך ראיון דחוף",
        "לבדוק את המצוקה",
        "לבדוק אישורים כלכליים",
        "לכתוב דו\"ח",
        "להזין המלצה דחופה",
        "לקבל אישור מפקד"
      ]),
      slaHours := 24,
      lastUpdated := now
    )
  }

  /** The requirements of the `Vouchers` template. */
  function VouchersRequirements(): seq<Requirement>
  {
    [
      Requirement("request", "בקשה בכתב", None, Text, true, None, None, Some(Soldier)),
      Requirement("bank_1m", "דפי חשבון בנק (חודש אחרון)", None, File, true, None, None, Some(Soldier))
    ]
  }

  /** The `vouchers` template. */
  function Vouchers(now: string): RequestTemplate
  {
    RequestTemplate(
      id := "vouchers",
      title := "תווי קנייה",
      category := "economic",
      shortDescription := "שוברים לקניית מזון וציוד בסיסי.",
      eligibilityCriteria := [
        "מצוקה כלכלית",
        "חייל בודד / זכאי סיוע / תשמ\"ש",
        "אישור קצינת ת\"ש"
      ],
      aiKeywords := [
        "תווים",
        "שוברים",
        "קניות",
        "אוכל",
        "סופר",
        "מזון",
        "תו קנייה",
        "שובר"
      ],
      approvingAuthority := "קצינת ת\"ש יחידה",
      requiresHomeVisit := false,
      requiresDeclaration := false,
      procedure30Days := Some(7),
      relatedBenefits := None,
      requirements := VouchersRequirements(),
      workflow := [
        ProcessStep(1, "בדיקת הזכאות", "", false, Some(ByRole(Mashak))),
        ProcessStep(2, "הזנת המלצה", "", false, Some(ByRole(Mashak)))
      ],
      soldierActions := Some([
        "לכתוב בקשה",
        "להביא דף חשבון בנק (חודש אחרון)"
      ]),
      mashakActions := Some([
        "לבדוק זכאות",
        "להזין המלצה"
      ]),
      slaHours := 48,
      lastUpdated := now
    )
  }

  /** The requirements of the `LoanImmediate` template. */
  function LoanImmediateRequirements(): seq<Requirement>
  {
    AssignTo(EconomicDocsSoldier, Soldier) +
    [
      Requirement("purpose", "הסבר על מטרת ההלוואה", None, Text, true, None, None, Some(Soldier)),
      Requirement("repayment_plan", "תכנית החזר", None, Text, false, None, None, Some(Soldier))
    ]
  }

  /** The `loan-immediate` template. */
  function LoanImmediate(now: string): RequestTemplate
  {
    RequestTemplate(
      id := "loan-immediate",
      title := "הלוואה מידית",
      category := "economic",
      shortDescription := "הלוואה עד 5,000 ש\"ח לתקופה קצרה.",
      eligibilityCriteria := [
        "צורך כלכלי מוכח",
        "יכולת החזר",
        "אישור מפקד"
      ],
      aiKeywords := [
        "הלוואה",
        "לווה",
        "כסף",
        "חוב",
        "מימון",
        "הלוואה מידית"
      ],
      approvingAuthority := "מפקד היחידה",
      requiresHomeVisit := false,
      requiresDeclaration := false,
      procedure30Days := Some(14),
      relatedBenefits := None,
      requirements := LoanImmediateRequirements(),
      workflow := [
        ProcessStep(1, "בדיקת הצורך", "", false, Some(ByRole(Mashak))),
        ProcessStep(2, "בדיקת יכולת החזר", "", false, Some(ByRole(Mashak))),
        ProcessStep(3, "הזנת המלצה", "", false, Some(ByRole(Mashak)))
      ],
      soldierActions := Some([
        "להביא דפי בנק מלאים",
        "להסביר את מטרת ההלוואה",
        "להציג תכנית החזר"
      ]),
      mashakActions := Some([
        "לבדוק את הצורך",
        "לבדוק יכולת החזר",
        "להזין המלצה"
      ]),
      slaHours := 72,
      lastUpdated := now
    )
  }

  /** The requirements of the `SpecialLeaveEconomic` template. */
  function SpecialLeaveEconomicRequirements(): seq<Requirement>
  {
    AssignTo(EconomicDocsSoldier, Soldier) +
    [
      Requirement("work_permit", "אישור עבודה בתוקף", None, File, true, None, None, Some(Soldier)),
      Requirement("debts", "אישורי חובות", None, File, true, None, Some(true), Some(Soldier)),
      Requirement("commander_approval", "אישור מפקד", None, File, true, None, None, Some(Commander))
    ]
  }

  /** The `special-leave-economic` template. */
  function SpecialLeaveEconomic(now: string): RequestTemplate
  {
    RequestTemplate(
      id := "special-leave-economic",
      title := "חופשה מיוחדת כלכלית",
      category := "leave",
      shortDescription := "חופשה עד 30 יום לעבודה.",
      eligibilityCriteria := [
        "אישור עבודה בתוקף",
        "מצוקה כלכלית מוכחת",
        "המלצת מפקד"
      ],
      aiKeywords := [
        "חופשה",
        "לעבוד",
        "חופש",
        "ימי עבודה",
        "להרוויח",
        "חופשה כלכלית"
      ],
      approvingAuthority := "אל\"מ / קצינת ת\"ש יחידה",
      requiresHomeVisit := false,
      requiresDeclaration := false,
      procedure30Days := Some(14),
      relatedBenefits := None,
      requirements := SpecialLeaveEconomicRequirements(),
      workflow := [
        ProcessStep(1, "בדיקת אישור העבודה", "", false, Some(ByRole(Mashak))),
        ProcessStep(2, "בדיקת המצוקה", "", false, Some(ByRole(Mashak))),
        ProcessStep(3, "ראיון", "", false, Some(ByRole(Mashak))),
        ProcessStep(4, "הזנת המלצה", "", false, Some(ByRole(Mashak)))
      ],
      soldierActions := Some([
        "להביא אישור עבודה בתוקף",
        "להביא אישורי חובות",
        "להביא אישורים כלכליים מלאים",
        "לקבל אישור מפקד"
      ]),
      mashakActions := Some([
        "לבדוק אישור עבודה",
        "לבדוק את המצוקה",
        "לראיין את החייל",
        "להזין המלצה"
      ]),
      slaHours := 168,
      lastUpdated := now
    )
  }

  /** The requirements of the `SpecialLeaveWedding` template. */
  function SpecialLeaveWeddingRequirements(): seq<Requirement>
  {
    [
      Requirement("wedding_invitation", "הזמנה לחתונה", None, File, true, None, None, Some(Soldier)),
      Requirement("marriage_intent", "אישור על רישום לנישואין", None, File, false, None, None, Some(Soldier))
    ]
  }

  /** The `special-leave-wedding` template. */
  function SpecialLeaveWedding(now: string): RequestTemplate
  {
    RequestTemplate(
      id := "special-leave-wedding",
      title := "חופשת חתונה",
      category := "leave",
      shortDescription := "חופשה לרגל נישואין.",
      eligibilityCriteria := [
        "החייל מתחתם/מתחתנת",
        "תאריך החתונה מאושר"
      ],
      aiKeywords := [
        "חתונה",
        "מתחתן",
        "נישואין",
        "חופשת חתונה",
        "חתן",
        "כלה"
      ],
      approvingAuthority := "מפקד יחידה",
      requiresHomeVisit := false,
      requiresDeclaration := false,
      procedure30Days := Some(7),
      relatedBenefits := Some([
        "תשמ\"ש נשוי"
      ]),
      requirements := SpecialLeaveWeddingRequirements(),
      workflow := [
        ProcessStep(1, "אימות תאריך", "", false, Some(ByRole(Mashak))),
        ProcessStep(2, "הזנת המלצה", "", false, Some(ByRole(Mashak)))
      ],
      soldierActions := Some([
        "להביא הזמנה לחתונה"
      ]),
      mashakActions := Some([
        "לאמת תאריך",
        "להזין המלצה"
      ]),
      slaHours := 24,
      lastUpdated := now
    )
  }

  /** The requirements of the `SpecialLeaveBirth` template. */
  function SpecialLeaveBirthRequirements(): seq<Requirement>
  {
    [
      Requirement("birth_cert", "תעודת לידה / אישור בית חולים", None, File, true, None, None, Some(Soldier))
    ]
  }

  /** The `special-leave-birth` template. */
  function SpecialLeaveBirth(now: string): RequestTemplate
  {
    RequestTemplate(
      id := "special-leave-birth",
      title := "חופשת לידה (לאם)",
      category := "leave",
      shortDescription := "חופשת לידה לחיילת.",
      eligibilityCriteria := [
        "חיילת בהריון",
        "תאריך לידה משוער"
      ],
      aiKeywords := [
        "לידה",
        "ילדה",
        "תינוק",
        "בן",
        "בת",
        "יולדת",
        "חופשת לידה"
      ],
      approvingAuthority := "קצינת ת\"ש יחידה",
      requiresHomeVisit := false,
      requiresDeclaration := false,
      procedure30Days := Some(7),
      relatedBenefits := Some([
        "תשמ\"ש הריון",
        "תקופת הורות"
      ]),
      requirements := SpecialLeaveBirthRequirements(),
      workflow := [
        ProcessStep(1, "אימות הלידה", "", false, Some(ByRole(Mashak))),
        ProcessStep(2, "הזנת המלצה", "", false, Some(ByRole(Mashak))),
        ProcessStep(3, "עדכון מערכות", "", false, Some(ByRole(Mashak)))
      ],
      soldierActions := Some([
        "להביא תעודת לידה"
      ]),
      mashakActions := Some([
        "לאמת את הלידה",
        "להזין המלצה",
        "לעדכן מערכות"
      ]),
      slaHours := 24,
      lastUpdated := now
    )
  }

  /** The requirements of the `OrNewImmigrant` template. */
  function OrNewImmigrantRequirements(): seq<Requirement>
  {
    [
      Requirement("aliyah_date", "אישור תאריך עלייה", Some("משרד הפנים / סוכנות יהודית"), File, true, None, None, Some(Soldier)),
      Requirement("teudat_oleh", "תעודת עולה", None, File, true, None, None, Some(Soldier)),
      Requirement("passport", "דרכון", None, File, true, None, None, Some(Soldier))
    ]
  }

  /** The `or-new-immigrant` template. */
  function OrNewImmigrant(now: string): RequestTemplate
  {
    RequestTemplate(
      id := "or-new-immigrant",
      title := "אוכלוסיית אור - עולה חדש",
      category := "or_population",
      shortDescription := "סיווג כאוכלוסיית אור כעולה חדש.",
      eligibilityCriteria := [
        "עלה לארץ לאחר גיל 16",
        "פחות מ-3 שנים בארץ (בד\"כ)"
      ],
      aiKeywords := [
        "עולה",
        "עליה",
        "חדש בארץ",
        "לא מכיר",
        "עברית קשה",
        "עולה חדש",
        "אוכלוסיית אור"
      ],
      approvingAuthority := "מש\"קית ת\"ש",
      requiresHomeVisit := false,
      requiresDeclaration := false,
      procedure30Days := Some(7),
      relatedBenefits := Some([
        "חייל בודד מובהק",
        "מענקים",
        "משרד הקליטה"
      ]),
      requirements := OrNewImmigrantRequirements(),
      workflow := [
        ProcessStep(1, "סיווג במערכת", "", false, Some(ByRole(Mashak))),
        ProcessStep(2, "מעקב ראיונות", "", false, Some(ByRole(Mashak))),
        ProcessStep(3, "הפנייה למשרד הקליטה", "", false, Some(ByRole(Mashak)))
      ],
      soldierActions := Some([
        "להביא אישור תאריך עלייה",
        "להביא תעודת עולה",
        "להביא דרכון"
      ]),
      mashakActions := Some([
        "לסווג במערכת",
        "לתאם ראיונות מעקב",
        "להפנות למשרד הקליטה"
      ]),
      slaHours := 24,
      lastUpdated := now
    )
  }

  /** The requirements of the `OrBrokenHome` template. */
  function OrBrokenHomeRequirements(): seq<Requirement>
  {
    []
  }

  /** The `or-broken-home` template. */
  function OrBrokenHome(now: string): RequestTemplate
  {
    RequestTemplate(
      id := "or-broken-home",
      title := "אוכלוסיית אור - משפחה שכולה",
      category := "or_population",
      shortDescription := "בן למשפחה שכולה.",
      eligibilityCriteria := [
        "אחד מהוריו נפל בשירות",
        "או אח/אחות",
        "מוכר ע\"י משרד הביטחון"
      ],
      aiKeywords := [
        "שכול",
        "הורה נפל",
        "אח נפל",
        "משפחה שכולה",
        "זכרון",
        "אוכלוסיית אור"
      ],
      approvingAuthority := "אוטומטי",
      requiresHomeVisit := false,
      requiresDeclaration := false,
      procedure30Days := Some(7),
      relatedBenefits := Some([
        "הת\"ש 3",
        "פטור מיחידות קדמיות",
        "מענקים"
      ]),
      requirements := OrBrokenHomeRequirements(),
      workflow := [
        ProcessStep(1, "סימון במערכת", "", true, Some(System)),
        ProcessStep(2, "בדיקת הטבות מובנות", "", false, Some(ByRole(Mashak))),
        ProcessStep(3, "הת\"ש 3 מובנה", "", true, Some(System))
      ],
      soldierActions := Some([]),
      mashakActions := Some([
        "לסמן במערכת",
        "לבדוק הטבות מובנות"
      ]),
      slaHours := 24,
      lastUpdated := now
    )
  }

  /** The requirements of the `OrParentSick` template. */
  function OrParentSickRequirements(): seq<Requirement>
  {
    [
      Requirement("medical_cert", "אישור רפואי על מחלה", Some("מרופא מומחה, עם אבחנה"), File, true, None, None, Some(Soldier)),
      Requirement("hospital_summary", "סיכום אשפוז", Some("אם רלוונטי"), File, false, None, None, Some(Soldier)),
      Requirement("dependency_cert", "אישור על תלות בסיוע", Some("אם רלוונטי"), File, false, None, None, Some(Soldier))
    ]
  }

  /** The `or-parent-sick` template. */
  function OrParentSick(now: string): RequestTemplate
  {
    RequestTemplate(
      id := "or-parent-sick",
      title := "אוכלוסיית אור - הורה חולה",
      category := "or_population",
      shortDescription := "חייל שהוריו חולים במחלה קשה.",
      eligibilityCriteria := [
        "הורה חולה במחלה קשה/סופנית",
        "אישור רפואי",
        "תלות ההורה בסיוע"
      ],
      aiKeywords := [
        "הורה חולה",
        "אמא חולה",
        "אבא חולה",
        "מחלה קשה",
        "סרטן",
        "חולה סופני",
        "אוכלוסיית אור"
      ],
      approvingAuthority := "קצינת ת\"ש יחידה",
      requiresHomeVisit := false,
      requiresDeclaration := false,
      procedure30Days := Some(14),
      relatedBenefits := None,
      requirements := OrParentSickRequirements(),
      workflow := [
        ProcessStep(1, "סיווג במערכת", "", false, Some(ByRole(Mashak))),
        ProcessStep(2, "ראיון", "", false, Some(ByRole(Mashak))),
        ProcessStep(3, "בדיקת צרכים", "", false, Some(ByRole(Mashak)))
      ],
      soldierActions := Some([
        "להביא אישור רפואי",
        "להביא אישור תלות בסיוע (אם רלוונטי)"
      ]),
      mashakActions := Some([
        "לסווג במערכת",
        "לראיין את החייל",
        "לבדוק צרכים"
      ]),
      slaHours := 72,
      lastUpdated := now
    )
  }

  /** The requirements of the `FlightFunding` template. */
  function FlightFundingRequirements(): seq<Requirement>
  {
    [
      Requirement("lone_cert", "אישור חייל בודד", None, File, true, None, None, Some(Soldier)),
      Requirement("flight_quote", "הצעת מחיר לטיסה", None, File, true, None, None, Some(Soldier)),
      Requirement("parents_address", "כתובת הורים בחו\"ל", None, File, true, None, None, Some(Soldier)),
      Requirement("passport_valid", "דרכון בתוקף", None, File, true, None, None, Some(Soldier))
    ]
  }

  /** The `flight-funding` template. */
  function FlightFunding(now: string): RequestTemplate
  {
    RequestTemplate(
      id := "flight-funding",
      title := "מימון טיסה לחייל בודד",
      category := "other",
      shortDescription := "מימון טיסה לחייל בודד לביקור הורים בחו\"ל.",
      eligibilityCriteria := [
        "חייל בודד מובהק",
        "הורים מתגוררים בחו\"ל",
        "פעם בשנה"
      ],
      aiKeywords := [
        "טיסה",
        "לטוס",
        "חו\"ל",
        "לבקר הורים",
        "כרטיס טיסה",
        "נסיעה לחו\"ל",
        "מימון טיסה"
      ],
      approvingAuthority := "האגודה למען החייל",
      requiresHomeVisit := false,
      requiresDeclaration := false,
      procedure30Days := Some(45),
      relatedBenefits := None,
      requirements := FlightFundingRequirements(),
      workflow := [
        ProcessStep(1, "בדיקת זכאות", "", false, Some(ByRole(Mashak))),
        ProcessStep(2, "הגשת בקשה", "", false, Some(ByRole(Mashak))),
        ProcessStep(3, "תיאום עם האגודה", "", false, Some(ByRole(Mashak)))
      ],
      soldierActions := Some([
        "להביא אישור חייל בודד",
        "להשיג הצעת מחיר לטיסה",
        "להביא דרכון בתוקף"
      ]),
      mashakActions := Some([
        "לבדוק זכאות",
        "להגיש בקשה",
        "לתאם עם האגודה"
      ]),
      slaHours := 336,
      lastUpdated := now
    )
  }

  /** The requirements of the `EquipmentLoss` template. */
  function EquipmentLossRequirements(): seq<Requirement>
  {
    [
      Requirement("loss_report", "דו\"ח אובדן/גניגה", Some("טופס מלא וחתום"), File, true, None, None, Some(Soldier)),
      Requirement("commander_approval", "אישור מפקד", None, File, true, None, None, Some(Commander)),
      Requirement("equipment_list", "רשימת הציוד שאבד", None, Text, true, None, None, Some(Soldier)),
      Requirement("police_report", "דו\"ח משטרה", Some("במקרה של גניבה"), File, false, None, None, Some(Soldier))
    ]
  }

  /** The `equipment-loss` template. */
  function EquipmentLoss(now: string): RequestTemplate
  {
    RequestTemplate(
      id := "equipment-loss",
      title := "אובדן ציוד אישי",
      category := "other",
      shortDescription := "טיפול באובדן ציוד אישי של החייל.",
      eligibilityCriteria := [
        "אובדן/גניבה של ציוד",
        "דיווח בזמן",
        "אישור מפקד"
      ],
      aiKeywords := [
        "איבדתי",
        "ציוד",
        "גניבה",
        "נגנב",
        "אבד",
        "חסר",
        "אובדן ציוד"
      ],
      approvingAuthority := "וועדת אובדן ציוד",
      requiresHomeVisit := false,
      requiresDeclaration := false,
      procedure30Days := Some(30),
      relatedBenefits := None,
      requirements := EquipmentLossRequirements(),
      workflow := [
        ProcessStep(1, "בדיקת המקרה", "", false, Some(ByRole(Mashak))),
        ProcessStep(2, "הפנייה לוועדה", "", false, Some(ByRole(Mashak))),
        ProcessStep(3, "מעקב", "", false, Some(ByRole(Mashak)))
      ],
      soldierActions := Some([
        "להגיש דו\"ח אובדן/גניבה",
        "לרשום את רשימת הציוד",
        "לקבל אישור מפקד",
        "להביא דו\"ח משטרה (אם גניבה)"
      ]),
      mashakActions := Some([
        "לבדוק את המקרה",
        "להפנות לוועדה",
        "לעקוב אחר הטיפול"
      ]),
      slaHours := 336,
      lastUpdated := now
    )
  }

  /** The number of templates in `DATA_TO_UPLOAD`. */
  const CatalogueSize: nat := 27

  /** The `k`-th template of `DATA_TO_UPLOAD`, for `0 <= k < CatalogueSize`. */
  function CatalogueEntry(k: int, now: string): RequestTemplate
  {
    if k == 0 then TashmashParents(now)
    else if k == 1 then TashmashMarried(now)
    else if k == 2 then TashmashPregnancy(now)
    else if k == 3 then TashmashMarriedChild(now)
    else if k == 4 then LoneSoldierMuvhak(now)
    else if k == 5 then LoneSoldierHame(now)
    else if k == 6 then SuidHelp(now)
    else if k == 7 then RentParticipation(now)
    else if k == 8 then BeitHachayel(now)
    else if k == 9 then MaintenanceExpenses(now)
    else if k == 10 then HelanaPart(now)
    else if k == 11 then HelanaDistance(now)
    else if k == 12 then Hakash1(now)
    else if k == 13 then Hakash2(now)
    else if k == 14 then Hakash3(now)
    else if k == 15 then WorkPermit(now)
    else if k == 16 then BzackGrant(now)
    else if k == 17 then Vouchers(now)
    else if k == 18 then LoanImmediate(now)
    else if k == 19 then SpecialLeaveEconomic(now)
    else if k == 20 then SpecialLeaveWedding(now)
    else if k == 21 then SpecialLeaveBirth(now)
    else if k == 22 then OrNewImmigrant(now)
    else if k == 23 then OrBrokenHome(now)
    else if k == 24 then OrParentSick(now)
    else if k == 25 then FlightFunding(now)
    else EquipmentLoss(now)
  }

  /** `DATA_TO_UPLOAD`, in source order. */
  function Catalogue(now: string): (ts: seq<RequestTemplate>)
    ensures |ts| == CatalogueSize
  {
    seq(CatalogueSize, k => CatalogueEntry(k, now))
  }
}
