/** The client's fixed configuration. */
module Settings {

  const RecognitionHostname := "https://search.craftar.net"
  const ManagementHostname := "https://my.craftar.net"

  const RecognitionApiVersion := "v2"
  const ManagementApiVersion := "v0"

  /** Default minimum size of the shorter image edge for a search. */
  const DefaultQueryMinSize := 240

  /** The resource types the management API accepts. */
  const AllowedObjectTypes: seq<string> :=
    ["collection", "item", "image", "token", "media", "tag", "version", "collectionbundle", "app"]

  /** The default search strategy; its value is not part of this model, so it
      is left unspecified. */
  const DefaultSearchStrategy: string
}
