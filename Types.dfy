/** The enumerations of src/types/index.ts that the modelled actions use. */
module Types {

  /** The e-commerce platforms links can be generated for. */
  datatype Platform = SHOPEE | LAZADA | TIKTOK | TIKI

  /** Profile and session roles. */
  datatype UserRole = USER | ADMIN | SUPPORT
}
