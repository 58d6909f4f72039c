/** The `Resource` record shared by the agent and the HTTP routes. Its module
    (`app.models.research`) is not part of this model; the fields are those the
    core reads and writes. An absent `content` and an empty one are both `""`,
    which is how the core tests them (`not resource.content`, `get_resource`'s
    default). */
module Resources {

  datatype Resource = Resource(url: string, title: string, description: string, content: string)

  /** No two resources share a URL. */
  ghost predicate DistinctUrls(rs: seq<Resource>) {
    forall i, j :: 0 <= i < j < |rs| ==> rs[i].url != rs[j].url
  }
}
