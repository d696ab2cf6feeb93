/** The records the live slices exchange with the backend (`User`, `ShoppingList`, `ShoppingItem`). */
module Types {
  import opened Wrappers

  /** A stored user, as the `/users` collection holds it. */
  datatype User = User(
    id: string, email: string, passwordHash: string,
    name: string, surname: string, cell: string,
    createdAt: string, updatedAt: string)

  /** `Omit<User, "passwordHash">`: the session user, which has no field for the hash. */
  datatype SessionUser = SessionUser(
    id: string, email: string,
    name: string, surname: string, cell: string,
    createdAt: string, updatedAt: string)

  /** `const { passwordHash: _, ...safe } = user`: every field but the hash is kept. */
  function Strip(u: User): (s: SessionUser)
    ensures s.id == u.id && s.email == u.email
    ensures s.name == u.name && s.surname == u.surname && s.cell == u.cell
    ensures s.createdAt == u.createdAt && s.updatedAt == u.updatedAt
  {
    SessionUser(u.id, u.email, u.name, u.surname, u.cell, u.createdAt, u.updatedAt)
  }

  /** A shopping list; `shareToken` is absent until the list is shared. */
  datatype ShoppingList = ShoppingList(
    id: string, userId: string, name: string,
    createdAt: string, updatedAt: string,
    shareToken: Option<string>)

  /** An item of a list; `notes` and `imageUrl` are optional fields. */
  datatype ShoppingItem = ShoppingItem(
    id: string, listId: string, userId: string,
    name: string, quantity: int, notes: Option<string>,
    category: string, imageUrl: Option<string>,
    createdAt: string, updatedAt: string)

  // Field selectors, passed to the generic sequence and sorting functions.
  function ListId(l: ShoppingList): string { l.id }
  function ListName(l: ShoppingList): string { l.name }
  function ListCreatedAt(l: ShoppingList): string { l.createdAt }
  function ItemId(i: ShoppingItem): string { i.id }
  function ItemName(i: ShoppingItem): string { i.name }
  function ItemCreatedAt(i: ShoppingItem): string { i.createdAt }
  function ItemCategoryOf(i: ShoppingItem): string { i.category }

  /** The lists have an entry whose id is `id`. */
  ghost predicate HasListId(lists: seq<ShoppingList>, id: string) {
    exists l :: l in lists && l.id == id
  }
}
