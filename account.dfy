/** The account records that the checkout and the permission functions read. */
module Account {

  /** A row of the user table: its primary key, its e-mail address and whether
      the user is a staff member. */
  datatype User = User(pk: int, email: string, isStaff: bool)
}
