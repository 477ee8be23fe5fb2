/** The shop record Printify's `/shops.json` lists; both Printify scripts pick a shop from such a list. */
module PrintifyShops {

  datatype Shop = Shop(id: nat, title: string)
}
