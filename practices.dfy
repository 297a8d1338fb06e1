/**
 * The listings page: the static catalog, the search box and type filter
 * that narrow it, and the page state that opens the application form for
 * a chosen listing.
 */
module Practices {
  import opened Wrappers
  import opened Text
  import opened Seqs
  import opened ApplicationForm

  /** The type filter's value that matches every type. */
  const All: string := "all"

  /** The filter menu: each value with its label. */
  const TypeFilterOptions: seq<(string, string)> :=
    [(All, "Todos los Tipos"), (FullTime, "Tiempo Completo"), (PartTime, "Medio Tiempo"), (Remote, "Remoto")]

  /** The filter menu labels each listing type as the application form does. */
  lemma FilterMenuAgreesWithTypeLabel()
    ensures forall i :: 1 <= i < |TypeFilterOptions| ==> TypeLabel(TypeFilterOptions[i].0) == TypeFilterOptions[i].1
  {
  }

  /** The catalog shown on the page. */
  const MockPractices: seq<Practice> :=
    [
      Practice("1", "Practicante de Desarrollo de Software", "TechCorp Solutions", "Nueva York, NY", "3 meses", FullTime,
               "Únete a nuestro equipo dinámico de desarrollo y trabaja en aplicaciones web de vanguardia usando React, Node.js y tecnologías en la nube.",
               ["Ciencias de la Computación o campo relacionado",
               "Conocimientos básicos de JavaScript",
               "Habilidades sólidas de resolución de problemas",
               "Experiencia en colaboración en equipo"],
               "15 dic, 2024", 3),
      Practice("2", "Asistente de Marketing Digital", "Creative Agency Inc", "Remoto", "4 meses", Remote,
               "Apoya a nuestro equipo de marketing en la creación de campañas digitales atractivas, análisis de métricas de rendimiento y gestión de presencia en redes sociales.",
               ["Especialización en Marketing o Comunicaciones",
               "Experiencia en redes sociales",
               "Mentalidad analítica",
               "Pensamiento creativo"],
               "10 ene, 2025", 2),
      Practice("3", "Analista de Negocios en Formación", "Finance Partners LLC", "Chicago, IL", "6 meses", PartTime,
               "Aprende metodologías de análisis de negocios mientras apoyas varios proyectos de clientes y desarrollas reportes analíticos.",
               ["Formación en Administración de Empresas",
               "Competencia en Excel",
               "Habilidades de comunicación",
               "Atención al detalle"],
               "20 dic, 2024", 1),
      Practice("4", "Practicante de Diseño UX/UI", "DesignStudio Pro", "San Francisco, CA", "4 meses", FullTime,
               "Trabaja junto a diseñadores experimentados para crear diseños centrados en el usuario para aplicaciones móviles y web.",
               ["Formación en Diseño o HCI",
               "Competencia en Figma",
               "Portafolio requerido",
               "Interés en investigación de usuarios"],
               "5 ene, 2025", 2),
      Practice("5", "Practicante de Ciencia de Datos", "Analytics Hub", "Remoto", "5 meses", Remote,
               "Analiza grandes conjuntos de datos, construye modelos predictivos y crea visualizaciones de datos usando Python y herramientas de aprendizaje automático.",
               ["Especialización en Estadística o Ciencia de Datos",
               "Programación en Python",
               "Conocimiento de SQL",
               "Conceptos básicos de aprendizaje automático"],
               "25 dic, 2024", 4),
      Practice("6", "Redactor de Contenido en Formación", "Media Collective", "Los Ángeles, CA", "3 meses", PartTime,
               "Crea contenido atractivo para varias plataformas digitales, colabora con editores y aprende estrategia de contenido.",
               ["Especialización en Inglés o Periodismo",
               "Portafolio de escritura",
               "Conocimiento de SEO",
               "Comprensión de redes sociales"],
               "15 ene, 2025", 3),
      Practice("7", "Practicante de Analista de Ciberseguridad", "SecureNet Systems", "Washington, DC", "6 meses", FullTime,
               "Aprende sobre seguridad de redes, análisis de amenazas y respuesta a incidentes mientras apoyas nuestro equipo de operaciones de seguridad.",
               ["Especialización en Ciencias de la Computación o Ciberseguridad",
               "Fundamentos de redes",
               "Interés en seguridad",
               "Habilidades de resolución de problemas"],
               "30 dic, 2024", 2),
      Practice("8", "Asistente de Operaciones de RRHH", "People First Inc", "Remoto", "4 meses", Remote,
               "Apoya procesos de RRHH incluyendo reclutamiento, incorporación, relaciones con empleados y desarrollo de políticas.",
               ["Formación en RRHH o Psicología",
               "Habilidades de comunicación",
               "Capacidades organizacionales",
               "Conciencia de confidencialidad"],
               "20 ene, 2025", 1),
      Practice("9", "Practicante de Desarrollador de Apps Móviles", "AppCraft Studios", "Austin, TX", "4 meses", FullTime,
               "Desarrolla aplicaciones móviles para plataformas iOS y Android usando React Native y herramientas de desarrollo nativo.",
               ["Experiencia en desarrollo móvil",
               "React Native o Swift/Kotlin",
               "Despliegue en app store",
               "Integración de APIs"],
               "18 dic, 2024", 2),
      Practice("10", "Analista Financiero en Formación", "Investment Group LLC", "Boston, MA", "5 meses", PartTime,
               "Asiste con modelado financiero, investigación de mercado y análisis de inversiones mientras aprendes de analistas senior.",
               ["Especialización en Finanzas o Economía",
               "Habilidades avanzadas en Excel",
               "Conceptos básicos de modelado financiero",
               "Pensamiento analítico"],
               "8 ene, 2025", 1),
      Practice("11", "Practicante de Infraestructura en la Nube", "CloudTech Solutions", "Seattle, WA", "6 meses", FullTime,
               "Trabaja con AWS, Azure y GCP para construir y mantener infraestructura en la nube para aplicaciones empresariales.",
               ["Formación en Ciencias de la Computación",
               "Conocimiento de plataformas en la nube",
               "Familiaridad con Linux",
               "Habilidades de scripting"],
               "22 dic, 2024", 3),
      Practice("12", "Gerente de Producto en Formación", "Innovation Labs", "Remoto", "4 meses", Remote,
               "Aprende el ciclo de vida de desarrollo de productos, realiza investigación de usuarios y colabora con equipos de ingeniería en características de productos.",
               ["Formación en Negocios o Ingeniería",
               "Habilidades analíticas",
               "Capacidades de comunicación",
               "Conocimientos tecnológicos"],
               "12 ene, 2025", 2)
    ]

  /** The search term occurs, ignoring case, in the listing's title or its company. */
  predicate MatchesSearch(p: Practice, term: string)
  {
    Includes(Lower(p.title), Lower(term)) || Includes(Lower(p.company), Lower(term))
  }

  /** The listing's type is the filter's, or the filter is "all". */
  predicate MatchesType(p: Practice, typeFilter: string)
  {
    typeFilter == All || p.kind == typeFilter
  }

  predicate Matches(p: Practice, term: string, typeFilter: string)
  {
    MatchesSearch(p, term) && MatchesType(p, typeFilter)
  }

  /** `filteredPractices`. */
  function FilteredPractices(catalog: seq<Practice>, term: string, typeFilter: string): seq<Practice>
  {
    Filter(catalog, p => Matches(p, term, typeFilter))
  }

  /** Every listing shown contains the term, ignoring case, in its title or company, and has the chosen type. */
  lemma FilteredSound(catalog: seq<Practice>, term: string, typeFilter: string)
    ensures forall i :: 0 <= i < |FilteredPractices(catalog, term, typeFilter)| ==>
      var p := FilteredPractices(catalog, term, typeFilter)[i];
      && (IsSubstring(Lower(term), Lower(p.title)) || IsSubstring(Lower(term), Lower(p.company)))
      && (typeFilter == All || p.kind == typeFilter)
  {
    var r := FilteredPractices(catalog, term, typeFilter);
    forall i | 0 <= i < |r|
      ensures IsSubstring(Lower(term), Lower(r[i].title)) || IsSubstring(Lower(term), Lower(r[i].company))
    {
      IncludesIsSubstring(Lower(r[i].title), Lower(term));
      IncludesIsSubstring(Lower(r[i].company), Lower(term));
    }
  }

  /** Every catalog listing that matches both conditions is shown. */
  lemma FilteredComplete(catalog: seq<Practice>, term: string, typeFilter: string, p: Practice)
    requires p in catalog
    requires IsSubstring(Lower(term), Lower(p.title)) || IsSubstring(Lower(term), Lower(p.company))
    requires typeFilter == All || p.kind == typeFilter
    ensures p in FilteredPractices(catalog, term, typeFilter)
  {
    IncludesIsSubstring(Lower(p.title), Lower(term));
    IncludesIsSubstring(Lower(p.company), Lower(term));
    FilterComplete(catalog, p => Matches(p, term, typeFilter), p);
  }

  /** The listings shown keep the catalog's order, so there are never more than the catalog holds. */
  lemma FilteredSubsequence(catalog: seq<Practice>, term: string, typeFilter: string)
    ensures IsSubsequence(FilteredPractices(catalog, term, typeFilter), catalog)
    ensures |FilteredPractices(catalog, term, typeFilter)| <= |catalog|
  {
    FilterIsSubsequence(catalog, p => Matches(p, term, typeFilter));
  }

  /** An empty search with type "all" shows the whole catalog. */
  lemma ClearedFiltersShowAll(catalog: seq<Practice>)
    ensures FilteredPractices(catalog, "", All) == catalog
  {
    forall j | 0 <= j < |catalog|
      ensures Matches(catalog[j], "", All)
    {
      IncludesEmpty(Lower(catalog[j].title));
    }
    FilterKeepsAll(catalog, p => Matches(p, "", All));
  }

  /** The search ignores the case of the term: lowercasing it first shows the same listings. */
  lemma SearchIgnoresCase(catalog: seq<Practice>, term: string, typeFilter: string)
    ensures FilteredPractices(catalog, Lower(term), typeFilter) == FilteredPractices(catalog, term, typeFilter)
  {
    LowerIdempotent(term);
    FilterAgreeing(catalog, p => Matches(p, Lower(term), typeFilter), p => Matches(p, term, typeFilter));
  }

  /** `mockPractices.find(p => p.id === id)`. */
  function PracticeById(catalog: seq<Practice>, id: string): Option<Practice>
  {
    Find(catalog, (p: Practice) => p.id == id)
  }

  /** The lookup yields the first listing with that id, or nothing when no listing has it. */
  lemma PracticeByIdFirst(catalog: seq<Practice>, id: string)
    ensures PracticeById(catalog, id).None? <==> forall j :: 0 <= j < |catalog| ==> catalog[j].id != id
    ensures PracticeById(catalog, id).Some? ==>
      exists i :: 0 <= i < |catalog| && catalog[i] == PracticeById(catalog, id).value && catalog[i].id == id &&
                  forall j :: 0 <= j < i ==> catalog[j].id != id
  {
  }

  /** The page's state. */
  class PracticesPage {
    const catalog: seq<Practice>
    var searchTerm: string
    var typeFilter: string
    var selectedPractice: Option<Practice>
    var isApplicationFormOpen: bool

    constructor ()
      ensures catalog == MockPractices
      ensures searchTerm == "" && typeFilter == All
      ensures selectedPractice == None && !isApplicationFormOpen
    {
      catalog := MockPractices;
      searchTerm := "";
      typeFilter := All;
      selectedPractice := None;
      isApplicationFormOpen := false;
    }

    /** The listings currently shown. */
    function Shown(): seq<Practice>
      reads this
    {
      FilteredPractices(catalog, searchTerm, typeFilter)
    }

    /** Typing in the search box. */
    method SetSearchTerm(term: string)
      modifies this
      ensures searchTerm == term
      ensures typeFilter == old(typeFilter) && selectedPractice == old(selectedPractice)
      ensures isApplicationFormOpen == old(isApplicationFormOpen)
    {
      searchTerm := term;
    }

    /** Choosing an entry of the type menu. */
    method SetTypeFilter(value: string)
      modifies this
      ensures typeFilter == value
      ensures searchTerm == old(searchTerm) && selectedPractice == old(selectedPractice)
      ensures isApplicationFormOpen == old(isApplicationFormOpen)
    {
      typeFilter := value;
    }

    /** `handleApply`: a known id selects its listing and opens the form; an unknown id changes nothing. */
    method HandleApply(id: string)
      modifies this
      ensures PracticeById(catalog, id).Some? ==>
        selectedPractice == PracticeById(catalog, id) && isApplicationFormOpen
      ensures PracticeById(catalog, id).None? ==>
        selectedPractice == old(selectedPractice) && isApplicationFormOpen == old(isApplicationFormOpen)
      ensures selectedPractice.Some? && old(selectedPractice) != selectedPractice ==>
        selectedPractice.value in catalog && selectedPractice.value.id == id
      ensures searchTerm == old(searchTerm) && typeFilter == old(typeFilter)
    {
      var found := PracticeById(catalog, id);
      if found.Some? {
        selectedPractice := found;
        isApplicationFormOpen := true;
      }
    }

    /** `handleCloseApplicationForm`: the form closes and nothing stays selected. */
    method HandleCloseApplicationForm()
      modifies this
      ensures !isApplicationFormOpen && selectedPractice == None
      ensures searchTerm == old(searchTerm) && typeFilter == old(typeFilter)
    {
      isApplicationFormOpen := false;
      selectedPractice := None;
    }

    /**
     * The clear-filters button: an empty search and type "all", which show
     * the whole catalog. The page renders the button only while no listing
     * is shown; the model lets it be pressed in any state.
     */
    method ClearFilters()
      modifies this
      ensures searchTerm == "" && typeFilter == All
      ensures Shown() == catalog
      ensures selectedPractice == old(selectedPractice) && isApplicationFormOpen == old(isApplicationFormOpen)
    {
      searchTerm := "";
      typeFilter := All;
      ClearedFiltersShowAll(catalog);
    }
  }
}
