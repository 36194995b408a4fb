/** The product record the client receives (client/src/types/index.ts):
    the category is either the raw id string or the populated category. */
module ClientTypes {
  import opened Wrappers
  import opened Catalog

  datatype CategoryRef = CategoryIdString(id: string) | PopulatedCategory(id: string, name: string, slug: string)

  datatype ClientProduct = ClientProduct(
    id: string,
    name: string,
    description: string,
    category: CategoryRef,
    price: int,
    condition: Condition,
    ratings: Option<int>,
    createdAt: int)
}
