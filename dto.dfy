/** The build configuration handed to the pipeline. */
module Dto {

  /** One registry an image is pushed to; the fields are only forwarded to the push. */
  datatype Registry = Registry(url: string, namespace: string, username: string, password: string)

  /** The target image and the ordered registry list; duplicates are allowed. */
  datatype Carpenter = Carpenter(
    imageName: string,
    imageTag: string,
    quayImgExp: string,
    registries: seq<Registry>)

  /** An execution error returned by a collaborator, kept opaque beyond its text. */
  datatype Error = Error(message: string)
}
