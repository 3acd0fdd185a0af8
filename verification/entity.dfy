/** The persisted records the services work on, and the fixed-width integer
    the wire messages use. */
module Entity {
  import opened Options

  /** Role codes. Their spellings live outside the modelled files; only
      their being distinct matters here. */
  const UserRoleAdmin: string := "admin"
  const UserRoleCustomer: string := "customer"

  /** Go's int32. */
  type int32 = x: int | -0x8000_0000 <= x < 0x8000_0000

  /** Two's-complement wrap-around of an exact result to 32 bits, as Go's
      int32 arithmetic and `int32(x)` conversion do. */
  function Wrap32(x: int): (r: int32)
    ensures -0x8000_0000 <= x < 0x8000_0000 ==> r == x
    ensures (r - x) % 0x1_0000_0000 == 0
  {
    (x + 0x8000_0000) % 0x1_0000_0000 - 0x8000_0000
  }

  /** A catalogue row; deletion only sets the flag and the deletion stamps. */
  datatype Product = Product(
    id: string,
    name: string,
    description: string,
    price: real,
    imageFileName: string,
    createdAt: int,
    createdBy: Option<string>,
    updatedAt: Option<int>,
    updatedBy: Option<string>,
    deletedAt: Option<int>,
    deletedBy: Option<string>,
    isDeleted: bool)

  /** A row of a user's cart. */
  datatype CartItem = CartItem(
    id: string,
    userId: string,
    productId: string,
    quantity: int,
    createdAt: int,
    createdBy: string,
    updatedAt: Option<int>,
    updatedBy: Option<string>)

  /** A registered account; `password` holds the password hash. */
  datatype User = User(
    id: string,
    email: string,
    password: string,
    fullName: string,
    roleCode: string,
    createdAt: int,
    createdBy: Option<string>,
    updatedAt: Option<int>,
    updatedBy: Option<string>,
    isDeleted: bool)
}
