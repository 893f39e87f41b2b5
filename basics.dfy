/** Failure-carrying values shared by every part of the prompt-synthesis engine. */
module Basics {

  datatype Option<+T> = None | Some(value: T)

  /** The exceptions the engine raises, one constructor per kind. */
  datatype Error =
    | FileNotFound(path: string)   // a named profile or structure file is absent
    | NoProfilesLoaded             // a random or sequential pass over an empty profile catalog
    | BadWeights                   // random.choices with no candidates or a non-positive total weight
    | MalformedFeature             // a feature whose configuration is not a mapping
    | NoStructure                  // the stem of a missing structure file name is asked for

  datatype Result<+T> = Ok(value: T) | Err(error: Error)
}
