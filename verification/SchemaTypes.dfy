/** The cached API description of one region and its small companion file. */
module SchemaTypes {
  const SPEC_VERSION := 1

  // Raw JSON parts are kept as text.
  datatype MethodSpec = MethodSpec(description: string, auth: seq<string>, params: string, response: string)

  type PathSpec = map<string, MethodSpec>

  datatype Service = Service(description: string, paths: map<string, PathSpec>, error: string, models: string)

  type Services = map<string, Service>

  datatype APISpace = APISpace(version: int, region: string, fetchedAt: int, etag: string, schemaHash: string,
                               services: Services)

  datatype Meta = Meta(version: int, region: string, fetchedAt: int, etag: string, schemaHash: string)

  function MetaOf(a: APISpace): Meta {
    Meta(a.version, a.region, a.fetchedAt, a.etag, a.schemaHash)
  }
}
