/** Feature collections, reduced to what the ICA converter asks of them: a
    storage-class tag, an element-type tag and, for dense collections, the
    handle of their feature matrix. */
module Features {
  import opened Linalg

  /** The storage class a collection reports (get_feature_class). */
  datatype FeatureClass = DenseClass | SparseClass | StringClass | OtherClass

  /** The element type a collection reports (get_feature_type). */
  datatype FeatureType = Float64 | Float32 | Int32 | OtherType

  class FeatureCollection {
    const featureClass: FeatureClass
    const featureType: FeatureType
    /** The feature matrix handle; sharing it shares the buffer. */
    var featureMatrix: SGMatrix

    /** Dense features of doubles: the only kind the converter works on. */
    predicate IsDenseReal() { featureClass == DenseClass && featureType == Float64 }

    constructor (cls: FeatureClass, typ: FeatureType, m: SGMatrix)
      ensures featureClass == cls && featureType == typ && featureMatrix == m
    {
      featureClass, featureType, featureMatrix := cls, typ, m;
    }
  }
}
