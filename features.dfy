/** The dot-product provider the Gaussian kernel is layered over (CDotFeatures).
    Only what the kernel asks of it is modelled: how many vectors a collection
    holds, how many features each of its dense vectors has, and the dot product
    between a vector of one collection and a vector of another. How vectors are
    stored is not part of this model, so the dot product is left uninterpreted. */
module Features {

  /** A collection of feature vectors. Its identity is the object reference:
      two collections with equal contents are still two collections. */
  class DotFeatures {
    /** get_num_vectors() */
    const numVectors: nat
    /** get_num_features() of the dense representation the compact score casts to */
    const numFeatures: nat

    constructor (numVectors: nat, numFeatures: nat)
      ensures this.numVectors == numVectors && this.numFeatures == numFeatures
    {
      this.numVectors := numVectors;
      this.numFeatures := numFeatures;
    }
  }

  /** x->dot(i, y, j): the dot product of vector i of x with vector j of y, as
      the provider computes it (an arbitrary pure function of its arguments). */
  datatype DotProduct = DotProduct(dot: (DotFeatures, nat, DotFeatures, nat) -> real)
}
