/**
 * What the name `Product` stands for in the files that import Backend/models/Product.js.
 * That file imports itself (line 2) and its default export is its Express router
 * (line 172), so every importer receives the router, which has none of a Mongoose
 * model's methods: `Product.find`, `Product.findById`, `Product.countDocuments`,
 * `Product.findByIdAndUpdate`, `Product.findByIdAndDelete` and `new Product(...).save()`
 * all throw a TypeError, which the surrounding `catch` answers with 500.
 *
 * The handlers that touch products take the binding as a parameter: `AsImported` is
 * the binding the code has; `ProductCollection` is the product collection the code
 * evidently means, and under it the handlers do what their guards and updates say.
 */
module ProductBinding {

  datatype Binding = RouterExport | ProductCollection

  /** The binding `import Product from "../models/Product.js"` produces. */
  const AsImported: Binding := RouterExport

  /** Whether calls of the model's methods on `Product` can run at all. */
  predicate HasModelMethods(b: Binding)
  {
    b.ProductCollection?
  }
}
