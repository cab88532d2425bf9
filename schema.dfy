/**
 * The records of the shared schema: a skip offering, the fields a caller
 * supplies to create one, and a user. Decimal columns are modelled as whole
 * currency units; the nullable text and decimal columns as `Option`.
 */
module Schema {

  import opened Wrappers

  /** A stored or returned skip offering (the `skips` table row). */
  datatype Skip = Skip(
    id: int,
    size: int,
    hirePeriodDays: int,
    transportCost: Option<int>,
    perTonneCost: Option<int>,
    priceBeforeVat: int,
    vat: int,
    postcode: string,
    area: string,
    forbidden: bool,
    allowedOnRoad: bool,
    allowsHeavyWaste: bool,
    createdAt: Option<string>,
    updatedAt: Option<string>)
  {
    /** The row without the columns the store assigns (id and timestamps). */
    function Fields(): InsertSkip
    {
      InsertSkip(size, hirePeriodDays, transportCost, perTonneCost, priceBeforeVat, vat,
                 postcode, area, forbidden, allowedOnRoad, allowsHeavyWaste)
    }
  }

  /** The insert schema: every column except `id`, `created_at` and `updated_at`. */
  datatype InsertSkip = InsertSkip(
    size: int,
    hirePeriodDays: int,
    transportCost: Option<int>,
    perTonneCost: Option<int>,
    priceBeforeVat: int,
    vat: int,
    postcode: string,
    area: string,
    forbidden: bool,
    allowedOnRoad: bool,
    allowsHeavyWaste: bool)
  {
    /** The stored row: these fields spread, plus the assigned id and timestamps. */
    function Stamp(id: int, createdAt: string, updatedAt: string): (s: Skip)
      ensures s.id == id
      ensures s.createdAt == Some(createdAt) && s.updatedAt == Some(updatedAt)
      ensures s.Fields() == this
    {
      Skip(id, size, hirePeriodDays, transportCost, perTonneCost, priceBeforeVat, vat,
           postcode, area, forbidden, allowedOnRoad, allowsHeavyWaste,
           Some(createdAt), Some(updatedAt))
    }
  }

  datatype User = User(id: int, username: string, password: string)

  datatype InsertUser = InsertUser(username: string, password: string)
  {
    function WithId(id: int): (u: User)
      ensures u.id == id && u.username == username && u.password == password
    {
      User(id, username, password)
    }
  }
}
