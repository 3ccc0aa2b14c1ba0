/** The three kinds of content the SEO routes attach records to. */
module Entities {
  import opened Wrappers

  datatype EntityType = PostEntity | PageEntity | CategoryEntity

  /** The name a request or a stored record uses for the kind. */
  function EntityName(e: EntityType): string
  {
    match e
    case PostEntity => "POST"
    case PageEntity => "PAGE"
    case CategoryEntity => "CATEGORY"
  }

  /** `z.enum(['POST', 'PAGE', 'CATEGORY'])`: a name is accepted exactly when it names a kind. */
  function ParseEntity(s: string): (r: Option<EntityType>)
    ensures forall e :: r == Some(e) <==> EntityName(e) == s
  {
    if s == "POST" then Some(PostEntity)
    else if s == "PAGE" then Some(PageEntity)
    else if s == "CATEGORY" then Some(CategoryEntity)
    else None
  }
}
