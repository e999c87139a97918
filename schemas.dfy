/**
 * The schema that travels beside the query text. Zod schemas are opaque
 * here: apart from `z.unknown()` and the safe array wrapper, a schema is
 * identified only by an abstract id.
 */
module Schemas {
  datatype Schema =
    | Unknown                     // z.unknown()
    | Field(id: nat)              // any other caller-supplied zod schema
    | SafeArray(element: Schema)  // safeZodArray(element)
}
