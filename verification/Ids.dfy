/** struct s_id: who made something, and the how-manyth it was. */
module Ids {
  datatype Id = Id(x: int, y: int)
}
