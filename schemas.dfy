/** The Project record of the portfolio's schemas, with the field defaults the schema declares. */
module Schemas {
  import opened Options

  /** A project as the create and update endpoints accept it (no id): `stack` defaults to the
      empty list, `github` and `live` to none, `featured` to false and `order` to 0, so a
      constructor call that leaves a field out gets the schema's default. */
  datatype Project = Project(
    name: string,
    description: string,
    stack: seq<string> := [],
    github: Option<string> := None,
    live: Option<string> := None,
    featured: bool := false,
    order: int := 0)

  /** A project built from only its two required fields carries every schema default. */
  lemma DefaultsOfProject(name: string, description: string)
    ensures Project(name, description).stack == []
    ensures Project(name, description).github == None && Project(name, description).live == None
    ensures !Project(name, description).featured && Project(name, description).order == 0
  {
  }
}
