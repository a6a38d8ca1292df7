/** The rows of the remaining tables the services read and write: item
    categories and inventory items (tenant-scoped), countries, e-mail
    settings and password-reset tokens. Each refers to other rows by id. */
module Entities {
  import opened Wrappers

  /** A category's item type, an enumeration carried by its constant name. */
  datatype ItemType = ItemType(name: string)

  /** Unique on the pair (name, company). */
  datatype ItemCategory = ItemCategory(
    name: string,
    description: Option<string>,
    itemType: Option<ItemType>,
    company: nat)

  const CategoryEntity: string := "com.joe.springsecurity.inventory.model.ItemCategory"

  /** The bean-validation constraints of a category row: a name of 1 to 255
      characters and an item type. */
  predicate ValidCategory(c: ItemCategory)
  {
    1 <= |c.name| <= 255 && c.itemType.Some?
  }

  /** A Java `double`, carried as its bit pattern; the services only copy it. */
  datatype Price = Price(bits: int)

  datatype InventoryItem = InventoryItem(
    name: string,
    quantity: int,
    price: Price,
    description: Option<string>,
    company: nat,
    category: nat)

  const ItemEntity: string := "com.joe.springsecurity.inventory.model.InventoryItem"

  /** The bean-validation constraints of an item row that the model can
      state: a name of 1 to 255 characters and a quantity of at least 0. */
  predicate ValidItem(it: InventoryItem)
  {
    1 <= |it.name| <= 255 && it.quantity >= 0
  }

  datatype Country = Country(name: string, code: Option<string>, continent: Option<string>)

  /** At most one per company (a one-to-one join column). */
  datatype EmailConfig = EmailConfig(
    smtpHost: Option<string>,
    smtpPort: int,
    smtpUsername: Option<string>,
    smtpPassword: Option<string>,
    fromAddress: Option<string>,
    active: bool,
    company: nat)

  /** A single-use password-reset token; `expirationDate` in milliseconds. */
  datatype PasswordResetToken = PasswordResetToken(token: string, user: nat, expirationDate: nat)
}
