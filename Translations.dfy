/** The two locales and the fragments of the translation dictionaries the core reads:
    the skill category names, the contact button labels and the per-project short
    descriptions. */
module Translations {

  /** `Locale` is `keyof typeof translations`, that is "en" | "fr". */
  datatype Locale = En | Fr {
    function Code(): (s: string)
      ensures s == "en" || s == "fr"
    {
      match this
      case En => "en"
      case Fr => "fr"
    }
  }

  /** The locale whose code is s, when s is one. */
  function LocaleOfCode(s: string): (l: Locale)
    requires s == "en" || s == "fr"
    ensures l.Code() == s
  {
    if s == "en" then En else Fr
  }

  datatype ProjectText = ProjectText(shortDescription: string)

  datatype Dictionary = Dictionary(
    skillCategories: map<string, string>,
    formSend: string,
    formSending: string,
    projectData: map<string, ProjectText>)

  const English: Dictionary := Dictionary(
    map["frontend" := "Frontend", "backend" := "Backend",
        "devops" := "DevOps & Cloud", "tools" := "Design & Tools"],
    "Send message", "Sending...",
    map["evera" := ProjectText("SaaS platform for vehicle fleet management"),
        "bibbatteries" := ProjectText("Electric battery stock management platform"),
        "runmate" := ProjectText("Intelligent runner matching mobile app"),
        "workadventure" := ProjectText("Immersive collaborative interactive platform"),
        "thesurfcourse" := ProjectText("Personalized surf equipment buying guide"),
        "tudobemmaman" := ProjectText("E-commerce for clothing brand"),
        "tripmate" := ProjectText("Collaborative travel mobile app"),
        "callixte" := ProjectText("Portfolio website for professional dancer"),
        "mascotteocean" := ProjectText("Showcase website for restaurant in Carcans Plage"),
        "otherprojects" := ProjectText("Collection of various web projects")])

  const French: Dictionary := Dictionary(
    map["frontend" := "Frontend", "backend" := "Backend",
        "devops" := "DevOps & Cloud", "tools" := "Design & Outils"],
    "Envoyer", "Envoi en cours...",
    map["evera" := ProjectText("Plateforme SaaS de gestion de flottes de véhicules"),
        "bibbatteries" := ProjectText("Plateforme de gestion de stocks de batteries électriques"),
        "runmate" := ProjectText("Application mobile de matching intelligent entre coureurs"),
        "workadventure" := ProjectText("Plateforme interactive collaborative immersive"),
        "thesurfcourse" := ProjectText("Guide d'achat de matériel de surf personnalisé"),
        "tudobemmaman" := ProjectText("E-commerce pour marque de vêtements"),
        "tripmate" := ProjectText("Application mobile de voyage collaborative"),
        "callixte" := ProjectText("Site vitrine pour danseuse professionnelle"),
        "mascotteocean" := ProjectText("Site vitrine pour restaurant à Carcans Plage"),
        "otherprojects" := ProjectText("Collection de divers projets web")])

  /** `translations[locale]`. */
  function TranslationsFor(locale: Locale): Dictionary
  {
    match locale
    case En => English
    case Fr => French
  }
}
