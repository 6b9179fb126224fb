/** The static project records of app/data/projects.ts: the fields the core reads
    (title, slug, images, short description, year, technologies, type, links). */
module ProjectData {
  import opened Wrappers

  /** The record's `type` field: "web" | "mobile". */
  datatype ProjectType = Web | Mobile

  datatype Project = Project(
    title: string,
    slug: string,
    image: string,
    images: seq<string>,
    shortDescription: string,
    year: int,
    technologies: seq<string>,
    kind: ProjectType,
    liveUrl: Option<string>,
    githubUrl: Option<string>)

  /** The compiled-in list, in source order; years are the integers `parseInt` reads. */
  const Projects: seq<Project> := [
    Project("Evera", "evera", "/images/projects/evera.jpg",
      ["/images/projects/evera.jpg", "/images/projects/evera-2.jpg"],
      "Plateforme SaaS de gestion de flottes de véhicules", 2024,
      ["Next.js", "Nest.js", "PostgreSQL", "Python", "Stripe", "MQTT"], Web, None, None),
    Project("Bib Batteries", "bibbatteries", "/images/projects/bibbatteries.jpg",
      ["/images/projects/bibbatteries.jpg", "/images/projects/bibbatteries-2.jpg"],
      "Plateforme de gestion de stocks de batteries électriques", 2024,
      ["React", "Python", "PostgreSQL", "Notion API"], Web, None, None),
    Project("RunMate", "runmate", "/images/projects/runmate.jpg",
      ["/images/projects/runmate.jpg", "/images/projects/runmate-2.jpg"],
      "Application mobile sociale pour coureurs", 2024,
      ["React Native", "Expo", "NativeWind", "Ruby on Rails", "PostgreSQL"], Mobile, None, None),
    Project("WorkAdventure", "workadventure", "/images/projects/workadventure.jpg",
      ["/images/projects/workadventure.jpg", "/images/projects/workadventure-2.jpg"],
      "Plateforme interactive collaborative immersive", 2023,
      ["Svelte", "TypeScript", "Tailwind CSS", "GitHub Actions"], Web, None, None),
    Project("The Surf Course", "thesurfcourse", "/images/projects/thesurfcourse.jpg",
      ["/images/projects/thesurfcourse.jpg", "/images/projects/thesurfcourse-2.jpg"],
      "Guide d'achat de matériel de surf personnalisé", 2023,
      ["Ruby on Rails", "JavaScript", "PostgreSQL", "Figma"], Web, None, None),
    Project("Tudo Bem Maman", "tudobemmaman", "/images/projects/tudobemmaman.jpg",
      ["/images/projects/tudobemmaman.jpg", "/images/projects/tudobemmaman-2.jpg"],
      "E-commerce pour marque de vêtements", 2023,
      ["Ruby on Rails", "JavaScript", "PostgreSQL", "Stripe"], Web, None, None),
    Project("TripMate", "tripmate", "/images/projects/tripmate.jpg",
      ["/images/projects/tripmate.jpg", "/images/projects/tripmate-2.jpg", "/images/projects/tripmate-3.jpg"],
      "Application mobile de voyage collaborative", 2024,
      ["React Native", "Expo", "TypeScript", "Firebase"], Mobile, None, None),
    Project("Portfolio Callixte", "callixte", "/images/projects/callixte.jpg",
      ["/images/projects/callixte.jpg", "/images/projects/callixte-2.jpg", "/images/projects/callixte-3.jpg"],
      "Site vitrine pour danseuse professionnelle", 2025,
      ["Next.js", "TypeScript", "Tailwind CSS"], Web, Some("https://callixte.com"), None)
  ]

  /** Slugs identify projects: no two records share one. */
  lemma SlugsUnique()
    ensures forall i, j :: 0 <= i < j < |Projects| ==> Projects[i].slug != Projects[j].slug
  {
  }
}
