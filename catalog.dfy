/**
 * The static data the home page declares: the eleven project records shown by the carousel and
 * the gallery, and the contact menu card handed to the navigation (src/app/page.tsx).
 */
module Catalog {
  import opened Decimal

  /** One project; its position in the catalog is its only identity. */
  datatype ProjectRecord = ProjectRecord(
    category: string,
    subcategory: string,
    title: string,
    description: string,
    image: string,
    link: string)

  /** A link of a contact card (`label` is a reserved word in Dafny, hence `labelText`). */
  datatype CardNavLink = CardNavLink(labelText: string, href: string, ariaLabel: string)

  /** A card of the contact menu. */
  datatype CardNavItem = CardNavItem(labelText: string, bgColor: string, textColor: string, links: seq<CardNavLink>)

  /** The number of projects in the catalog. */
  const ProjectCount: nat := 11

  const Project1: ProjectRecord :=
    ProjectRecord("Residential", "Multi Family", "Contemporary Duplex Residences",
      "Elegant duplex homes with clean lines, generous balconies, and landscaped surroundings for modern family living.",
      "/projects/1.jpeg", "/project-1")

  const Project2: ProjectRecord :=
    ProjectRecord("Civic", "Institutional", "Modern Cultural Center",
      "A striking civic building with bold vertical elements and open courtyards, designed to host exhibitions and events.",
      "/projects/2.jpeg", "/project-2")

  const Project3: ProjectRecord :=
    ProjectRecord("Residential", "Single Family", "Minimalist Bungalows",
      "Single-story homes with sleek white facades and simple, functional layouts that emphasize tranquility.",
      "/projects/3.jpeg", "/project-3")

  const Project4: ProjectRecord :=
    ProjectRecord("Residential", "Single Family", "Urban Courtyard Home",
      "A private residence with a central entrance, blending privacy with modern architectural proportions.",
      "/projects/4.jpeg", "/project-4")

  const Project5: ProjectRecord :=
    ProjectRecord("Civic", "Community Facilities", "Public Service Pavilion",
      "A row of modular units designed for community services, blending practicality with a modern aesthetic.",
      "/projects/5.jpeg", "/project-5")

  const Project6: ProjectRecord :=
    ProjectRecord("Residential", "Single Family", "Garden Villa",
      "A contemporary home surrounded by greenery, offering open terraces and a connection to nature.",
      "/projects/6.jpeg", "/project-6")

  const Project7: ProjectRecord :=
    ProjectRecord("Residential", "Multi Family", "Modern Row Houses",
      "Stylish multi-unit residences featuring geometric facades and shared landscaped spaces.",
      "/projects/7.jpeg", "/project-7")

  const Project8: ProjectRecord :=
    ProjectRecord("Commercial", "Office", "Professional Office Block",
      "A sleek and minimal office complex providing adaptable spaces for modern businesses.",
      "/projects/8.jpeg", "/project-8")

  const Project9: ProjectRecord :=
    ProjectRecord("Residential", "Vacation Home", "Suburban Retreat",
      "A modern getaway home designed with expansive glazing and a calm suburban setting.",
      "/projects/9.jpeg", "/project-9")

  const Project10: ProjectRecord :=
    ProjectRecord("Civic", "Library", "Contemporary Knowledge Center",
      "A public library that merges cutting-edge architecture with functional, welcoming interiors.",
      "/projects/10.jpeg", "/project-10")

  const Project11: ProjectRecord :=
    ProjectRecord("Hospitality", "Restaurant", "Poolside Dining Pavilion",
      "A light-filled dining venue that blends indoor-outdoor spaces with modern luxury design.",
      "/projects/11.jpeg", "/project-11")

  /** The catalog, in display order (which is also the carousel's traversal order). */
  function Projects(): (r: seq<ProjectRecord>)
    ensures |r| == ProjectCount
  {
    [Project1, Project2, Project3, Project4, Project5, Project6, Project7, Project8, Project9, Project10, Project11]
  }

  /** The page's link for the project at 0-based position `k`. */
  function ProjectLink(k: nat): string
  {
    "/project-" + Dec(k + 1)
  }

  /** The page's image path for the project at 0-based position `k`. */
  function ProjectImage(k: nat): string
  {
    "/projects/" + Dec(k + 1) + ".jpeg"
  }

  /** The catalog has eleven records; record `k` links to page k+1 and shows image k+1. */
  lemma CatalogShape()
    ensures |Projects()| == ProjectCount
    ensures forall k :: 0 <= k < |Projects()| ==> Projects()[k].link == ProjectLink(k)
    ensures forall k :: 0 <= k < |Projects()| ==> Projects()[k].image == ProjectImage(k)
  {
    forall k | 0 <= k < |Projects()|
      ensures Projects()[k].link == ProjectLink(k) && Projects()[k].image == ProjectImage(k)
    {
      RecordShape(k);
    }
  }

  /** Record `k`'s link and image follow the numbering scheme. */
  lemma RecordShape(k: nat)
    requires k < |Projects()|
    ensures Projects()[k].link == ProjectLink(k) && Projects()[k].image == ProjectImage(k)
  {
    DecOneToEleven();
    if k < 6 { FirstRecordsShape(k); } else { LastRecordsShape(k); }
  }

  lemma FirstRecordsShape(k: nat)
    requires k < 6 && Dec(1) == "1" && Dec(2) == "2" && Dec(3) == "3"
    requires Dec(4) == "4" && Dec(5) == "5" && Dec(6) == "6"
    ensures Projects()[k].link == ProjectLink(k) && Projects()[k].image == ProjectImage(k)
  {
    match k
    case 0 => assert Projects()[0] == Project1;
    case 1 => assert Projects()[1] == Project2;
    case 2 => assert Projects()[2] == Project3;
    case 3 => assert Projects()[3] == Project4;
    case 4 => assert Projects()[4] == Project5;
    case _ => assert Projects()[5] == Project6;
  }

  lemma LastRecordsShape(k: nat)
    requires 6 <= k < 11 && Dec(7) == "7" && Dec(8) == "8" && Dec(9) == "9"
    requires Dec(10) == "10" && Dec(11) == "11"
    ensures Projects()[k].link == ProjectLink(k) && Projects()[k].image == ProjectImage(k)
  {
    match k
    case 6 => assert Projects()[6] == Project7;
    case 7 => assert Projects()[7] == Project8;
    case 8 => assert Projects()[8] == Project9;
    case 9 => assert Projects()[9] == Project10;
    case _ => assert Projects()[10] == Project11;
  }

  /** No two catalog records share a title. */
  lemma CatalogTitlesDistinct()
    ensures forall j, k :: 0 <= j < k < |Projects()| ==> Projects()[j].title != Projects()[k].title
  {
  }

  /**
   * The single contact card of the navigation menu. The source sorts its links by label with a
   * locale-dependent comparison; this is the order that sort yields.
   */
  function ContactItems(): (r: seq<CardNavItem>)
    ensures |r| == 1 && |r[0].links| == 3
    // the links come out of the sort ordered by label
    ensures forall k :: 0 <= k < 3 ==> |r[0].links[k].labelText| > 0
    ensures forall j, k :: 0 <= j < k < 3 ==> r[0].links[j].labelText[0] < r[0].links[k].labelText[0]
  {
    [
      CardNavItem("Contact", "#171718", "#c5c6c8", [
        CardNavLink("Email", "mailto:", "Email us"),
        CardNavLink("Facebook", "https://www.facebook.com/profile.php?id=61577381315326", "Facebook"),
        CardNavLink("Instagram", "https://www.instagram.com/romeroarchitects", "Instagram")
      ])
    ]
  }
}
