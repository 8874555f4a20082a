/** The static catalogue: the colour and surface records and the two
    constants the state store starts from (the first predefined surface and
    the first colour of the first family). */
module Catalogue {

  datatype Colour = Colour(id: string, name: string, code: string, hex: string, family: string, description: string)

  datatype SurfaceZone = SurfaceZone(id: string, zoneLabel: string, description: string, cssVariable: string)

  datatype Category = Exterieur | Interieur | Decor

  datatype Surface = Surface(id: string, name: string, category: Category, preview: string,
                             accentColour: string, zones: seq<SurfaceZone>)

  /** The ids of a surface's zones, in order. */
  function ZoneIds(zones: seq<SurfaceZone>): (ids: seq<string>)
    ensures |ids| == |zones| && forall i :: 0 <= i < |zones| ==> ids[i] == zones[i].id
  {
    seq(|zones|, i requires 0 <= i < |zones| => zones[i].id)
  }

  /** The first colour of the first colour family. */
  const DefaultColour := Colour("sand-001", "Sable signature", "WB-201", "#e3d2b4", "minerals",
                                "Un beige doux qui illumine les façades.")

  const Surfaces: seq<Surface> := [
    Surface("modern-facade", "Façade contemporaine", Exterieur,
      "linear-gradient(135deg, rgba(255,255,255,0.85), rgba(230,234,238,0.95)), url(https://images.unsplash.com/photo-1505691723518-36a5ac3be353?auto=format&fit=crop&w=1400&q=80)",
      "#223240",
      [ SurfaceZone("main", "Enduit principal", "Surface majoritaire de la façade", "--zone-main"),
        SurfaceZone("secondary", "Encadrements", "Tableaux et encadrements de fenêtres", "--zone-secondary"),
        SurfaceZone("details", "Détails architecturaux", "Garde-corps, corniches, etc.", "--zone-details") ]),
    Surface("living-room", "Salon lumineux", Interieur,
      "linear-gradient(135deg, rgba(255,255,255,0.9), rgba(240,240,240,0.95)), url(https://images.unsplash.com/photo-1493663284031-b7e3aefcae8e?auto=format&fit=crop&w=1400&q=80)",
      "#7b5cd6",
      [ SurfaceZone("walls", "Murs", "Murs principaux de la pièce", "--zone-main"),
        SurfaceZone("accent", "Mur d’accent", "Idéal pour une touche audacieuse", "--zone-secondary"),
        SurfaceZone("woodwork", "Boiseries", "Portes, moulures et plinthes", "--zone-details") ]),
    Surface("kitchen", "Cuisine créative", Decor,
      "linear-gradient(135deg, rgba(255,255,255,0.85), rgba(248,248,248,0.9)), url(https://images.unsplash.com/photo-1519710164239-da123dc03ef4?auto=format&fit=crop&w=1400&q=80)",
      "#f25c05",
      [ SurfaceZone("cabinets", "Meubles bas", "Façades de meubles et îlots", "--zone-main"),
        SurfaceZone("high-cabinets", "Meubles hauts", "Colonnes, rangements et étagères", "--zone-secondary"),
        SurfaceZone("backsplash", "Crédence", "Zone stratégique au-dessus du plan de travail", "--zone-details") ])
  ]

  /** The surface shown first. */
  const DefaultSurface := Surfaces[0]
}
